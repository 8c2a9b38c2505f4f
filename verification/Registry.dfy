/** Registry retention (scripts/ops/oci-storage-maintenance.py).
  *
  * A worklist closes the protected digests under manifest children and subjects; only versions
  * outside the closure may be deleted. The registry answers through a function from digests to
  * manifests, absent where the manifest is unreadable.
  */
module Registry {
  import opened Common

  /** An identifier, a digest or a version; references may be written as either of the last two. */
  datatype Name = Name(text: string)

  type Digest = Name
  const NONE := Name("")

  /** One listed version; the name NONE means that it carries no version. */
  datatype Image = Image(id: Name, digest: Digest, version: Name, created: int, available: bool)
  datatype Manifest = Manifest(manifests: seq<Digest>, subject: Digest)

  type Fetch = Digest -> Option<Manifest>

  datatype Error = MissingReference | UnreadableManifest(digest: Digest) | MissingChild(child: Digest)
  datatype Plan = Plan(keep: set<Digest>, candidates: map<Name, Image>, manifests: map<Digest, Manifest>)

  const TWO_DAYS := 2 * 24 * 60 * 60

  // ----- Protected roots -----

  /** A full commit hash: forty lower-case hexadecimal digits. */
  predicate IsSha(version: Name) {
    |version.text| == 40 && forall c | c in version.text :: '0' <= c <= '9' || 'a' <= c <= 'f'
  }

  function Available(images: seq<Image>): seq<Image> {
    if images == [] then []
    else Available(images[..|images| - 1])
         + if images[|images| - 1].available then [images[|images| - 1]] else []
  }

  /** The rows at these places, in increasing order, are exactly the available ones. */
  ghost predicate Selects(images: seq<Image>, places: seq<nat>, rows: seq<Image>) {
    && |places| == |rows|
    && (forall k | 0 <= k < |places| :: places[k] < |images| && rows[k] == images[places[k]])
    && (forall j, k | 0 <= j < k < |places| :: places[j] < places[k])
    && (forall i: nat | i < |images| :: i in places <==> images[i].available)
  }

  lemma SelectsMore(images: seq<Image>, places: seq<nat>, rows: seq<Image>, last: Image)
    requires Selects(images, places, rows)
    ensures last.available ==> Selects(images + [last], places + [|images|], rows + [last])
    ensures !last.available ==> Selects(images + [last], places, rows)
  {
    var more, n := images + [last], |images|;
    assert forall i: nat | i < n :: more[i] == images[i];
    assert forall i: nat | i in places :: i < n;
    assert forall i: nat :: i in places + [n] <==> i in places || i == n;
  }

  lemma AvailableMore(images: seq<Image>, last: Image)
    ensures Available(images + [last]) == if last.available then Available(images) + [last] else Available(images)
  {
    assert (images + [last])[..|images|] == images;
    assert Available(images) + [] == Available(images);
  }

  /** The available rows, in the order listed. */
  lemma {:induction false} AvailableSelects(images: seq<Image>)
    ensures exists places :: Selects(images, places, Available(images))
  {
    if images == [] {
      var none: seq<nat> := [];
      assert Selects(images, none, Available(images));
    } else {
      var init, last := images[..|images| - 1], images[|images| - 1];
      AvailableSelects(init);
      assert init + [last] == images;
      AvailableMore(init, last);
      hide Selects, Available;
      var places :| Selects(init, places, Available(init));
      SelectsMore(init, places, Available(init), last);
    }
  }

  lemma AvailableRows(images: seq<Image>)
    ensures forall i :: i in Available(images) <==> i in images && i.available
  {
    AvailableSelects(images);
    var places :| Selects(images, places, Available(images));
    forall i | i in images && i.available ensures i in Available(images) {
      var n :| 0 <= n < |images| && images[n] == i;
      assert n in places;
    }
  }

  function Digests(images: seq<Image>): set<Digest> { set i | i in images :: i.digest }

  /** The digest each version names; the last row listed wins. */
  function ByTag(images: seq<Image>): map<Name, Digest> {
    if images == [] then map[]
    else
      var last := images[|images| - 1];
      var rest := ByTag(images[..|images| - 1]);
      if last.version == NONE then rest else rest[last.version := last.digest]
  }

  function Resolve(images: seq<Image>, reference: Name): Digest {
    if reference in ByTag(images) then ByTag(images)[reference] else reference
  }

  /** Stable insertion, newest first. */
  function InsertNewest(sorted: seq<Image>, image: Image): seq<Image> {
    if sorted == [] || sorted[|sorted| - 1].created >= image.created then sorted + [image]
    else InsertNewest(sorted[..|sorted| - 1], image) + [sorted[|sorted| - 1]]
  }

  function NewestFirst(images: seq<Image>): seq<Image> {
    if images == [] then [] else InsertNewest(NewestFirst(images[..|images| - 1]), images[|images| - 1])
  }

  function Released(images: seq<Image>): seq<Image> {
    if images == [] then []
    else Released(images[..|images| - 1])
         + if IsSha(images[|images| - 1].version) then [images[|images| - 1]] else []
  }

  function Recent(images: seq<Image>): seq<Image> {
    var sorted := NewestFirst(Released(images));
    if |sorted| <= 3 then sorted else sorted[..3]
  }

  predicate Unknown(image: Image) { image.version != NONE && !IsSha(image.version) }

  function Roots(images: seq<Image>, required: set<Name>, now: int): set<Digest> {
    (set ref | ref in required :: Resolve(images, ref))
    + Digests(Recent(images))
    + (set i | i in images && (i.created > now - TWO_DAYS || Unknown(i)) :: i.digest)
  }

  predicate AllReferencesKnown(images: seq<Image>, required: set<Name>) {
    required <= ByTag(images).Keys + Digests(images)
  }

  // ----- The manifest graph -----

  function Children(m: Manifest): seq<Digest> {
    m.manifests + if m.subject == NONE then [] else [m.subject]
  }

  predicate Edge(fetch: Fetch, from: Digest, to: Digest) {
    fetch(from).Some? && to in Children(fetch(from).value)
  }

  predicate IsPath(fetch: Fetch, roots: set<Digest>, path: seq<Digest>) {
    path != [] && path[0] in roots && forall i :: 0 < i < |path| ==> Edge(fetch, path[i - 1], path[i])
  }

  /** Reachability by an explicit path from a root. */
  ghost predicate Reachable(fetch: Fetch, roots: set<Digest>, d: Digest) {
    exists path :: IsPath(fetch, roots, path) && path[|path| - 1] == d
  }

  /** With every readable manifest, those it lists and its subject. */
  ghost predicate Closed(fetch: Fetch, s: set<Digest>) {
    forall d | d in s && fetch(d).Some? ::
      && (forall c | c in fetch(d).value.manifests :: c in s)
      && (fetch(d).value.subject.text != "" ==> fetch(d).value.subject in s)
  }

  lemma ClosedIff(fetch: Fetch, s: set<Digest>)
    ensures Closed(fetch, s) <==> forall d, c | d in s && Edge(fetch, d, c) :: c in s
  {
    forall d | fetch(d).Some?
      ensures forall c :: Edge(fetch, d, c) <==>
        c in fetch(d).value.manifests || (fetch(d).value.subject.text != "" && c == fetch(d).value.subject)
    {
      assert fetch(d).value.subject == NONE <==> fetch(d).value.subject.text == "";
    }
  }

  /** A manifest that can be kept: readable, with every child in the inventory. */
  predicate Sound(fetch: Fetch, inventory: set<Digest>, d: Digest) {
    fetch(d).Some? && forall c | c in Children(fetch(d).value) :: c in inventory
  }

  lemma {:induction false} PathStaysIn(fetch: Fetch, roots: set<Digest>, s: set<Digest>, path: seq<Digest>)
    requires IsPath(fetch, roots, path) && roots <= s && Closed(fetch, s)
    ensures path[|path| - 1] in s
  {
    ClosedIff(fetch, s);
    hide Closed;
    if |path| > 1 {
      assert IsPath(fetch, roots, path[..|path| - 1]);
      PathStaysIn(fetch, roots, s, path[..|path| - 1]);
      assert Edge(fetch, path[|path| - 2], path[|path| - 1]);
    }
  }

  lemma OneStepFurther(fetch: Fetch, roots: set<Digest>, d: Digest, c: Digest)
    requires Reachable(fetch, roots, d) && Edge(fetch, d, c)
    ensures Reachable(fetch, roots, c)
  {
    var path :| IsPath(fetch, roots, path) && path[|path| - 1] == d;
    assert IsPath(fetch, roots, path + [c]);
    assert (path + [c])[|path + [c]| - 1] == c;
  }

  lemma RootsReachable(fetch: Fetch, roots: set<Digest>, d: Digest)
    requires d in roots
    ensures Reachable(fetch, roots, d)
  {
    assert IsPath(fetch, roots, [d]) && [d][0] == d;
  }

  /** A closed set of reachable digests holding the roots is the least closed set holding them. */
  lemma ClosureIsLeast(fetch: Fetch, roots: set<Digest>, keep: set<Digest>)
    requires roots <= keep && Closed(fetch, keep)
    requires forall d | d in keep :: Reachable(fetch, roots, d)
    ensures forall d :: d in keep <==> Reachable(fetch, roots, d)
    ensures forall s: set<Digest> | roots <= s && Closed(fetch, s) :: keep <= s
  {
    forall d | Reachable(fetch, roots, d) ensures d in keep {
      var path :| IsPath(fetch, roots, path) && path[|path| - 1] == d;
      PathStaysIn(fetch, roots, keep, path);
    }
    forall s: set<Digest>, d | roots <= s && Closed(fetch, s) && d in keep ensures d in s {
      var path :| IsPath(fetch, roots, path) && path[|path| - 1] == d;
      PathStaysIn(fetch, roots, s, path);
    }
  }

  // ----- The plan -----

  method ToSequence(s: set<Digest>) returns (r: seq<Digest>)
    ensures forall d :: d in r <==> d in s
  {
    r := [];
    var rest := s;
    while rest != {}
      invariant forall d :: d in r <==> d in s && d !in rest
      invariant rest <= s
    {
      var d :| d in rest;
      r, rest := r + [d], rest - {d};
    }
  }

  /** Queue the children not yet kept, or report one that the inventory lacks. */
  method Enqueue(children: seq<Digest>, inventory: set<Digest>, keep: set<Digest>, pending: seq<Digest>)
    returns (keep': set<Digest>, pending': seq<Digest>, missing: Option<Digest>)
    ensures missing.None? ==> forall c | c in children :: c in inventory
    ensures missing.None? ==> keep' == keep + set c | c in children
    ensures missing.None? ==> forall d :: d in pending' <==> d in pending || d in keep' - keep
    ensures missing.Some? ==> missing.value in children && missing.value !in inventory
  {
    keep', pending' := keep, pending;
    for i := 0 to |children|
      invariant forall c | c in children[..i] :: c in inventory
      invariant keep' == keep + set c | c in children[..i]
      invariant forall d :: d in pending' <==> d in pending || d in keep' - keep
    {
      var child := children[i];
      assert children[..i + 1] == children[..i] + [child];
      if child !in inventory {
        return keep', pending', Some(child);
      }
      if child !in keep' {
        keep' := keep' + {child};
        pending' := pending' + [child];
      }
    }
    assert children[..|children|] == children;
    missing := None;
  }

  /** Fetch one digest and queue its children, or report why that cannot be done. */
  method Expand(fetch: Fetch, ghost roots: set<Digest>, inventory: set<Digest>, keep: set<Digest>,
                rest: seq<Digest>, manifests: map<Digest, Manifest>, digest: Digest)
    returns (keep': set<Digest>, pending': seq<Digest>, manifests': map<Digest, Manifest>, error: Option<Error>)
    requires Progress(fetch, roots, inventory, keep, rest + [digest], manifests) && digest !in manifests
    ensures error.None? ==> Progress(fetch, roots, inventory, keep', pending', manifests')
    ensures error.None? ==> manifests'.Keys == manifests.Keys + {digest}
    ensures error.Some? ==> Obstacle(fetch, inventory, digest, error.value)
  {
    hide Progress, Sound, Children;
    keep', pending', manifests', error := keep, rest, manifests, None;
    Unsound(fetch, inventory, digest);
    var fetched := fetch(digest);
    if fetched.None? {
      error := Some(UnreadableManifest(digest));
      return;
    }
    var missing;
    keep', pending', missing := Enqueue(Children(fetched.value), inventory, keep, rest);
    if missing.Some? {
      error := Some(MissingChild(missing.value));
      return;
    }
    FetchedOne(fetch, roots, inventory, keep, rest, manifests, digest, keep', pending');
    manifests' := manifests[digest := fetched.value];
  }

  /** Expand the roots and whatever they lead to, up to the first obstacle. */
  method Drain(fetch: Fetch, roots: set<Digest>, inventory: set<Digest>)
    returns (keep: set<Digest>, manifests: map<Digest, Manifest>, error: Option<Error>)
    requires roots <= inventory
    ensures error.None? ==> Progress(fetch, roots, inventory, keep, [], manifests)
    ensures error.Some? ==>
      exists d :: Reachable(fetch, roots, d) && Obstacle(fetch, inventory, d, error.value)
  {
    hide *;
    keep, manifests, error := roots, map[], None;
    var pending := ToSequence(keep);
    Begins(fetch, roots, inventory, pending);
    while pending != []
      invariant error.None? && Progress(fetch, roots, inventory, keep, pending, manifests)
      decreases inventory - manifests.Keys, |pending|
    {
      var digest, rest := pending[|pending| - 1], pending[..|pending| - 1];
      assert pending == rest + [digest];
      Popped(fetch, roots, inventory, keep, rest, manifests, digest);
      if digest in manifests {
        pending := rest;
      } else {
        keep, pending, manifests, error := Expand(fetch, roots, inventory, keep, rest, manifests, digest);
        if error.Some? {
          return;
        }
      }
    }
  }

  /** The closure of the roots, or the first obstacle met on the way. */
  method Close(fetch: Fetch, roots: set<Digest>, inventory: set<Digest>)
    returns (r: Result<(set<Digest>, map<Digest, Manifest>), Error>)
    requires roots <= inventory
    ensures r.Ok? <==> forall d | Reachable(fetch, roots, d) :: Sound(fetch, inventory, d)
    ensures r.Ok? ==>
      && (forall d :: d in r.value.0 <==> Reachable(fetch, roots, d))
      && roots <= r.value.0 && Closed(fetch, r.value.0)
      && (forall s: set<Digest> | roots <= s && Closed(fetch, s) :: r.value.0 <= s)
      && r.value.1.Keys == r.value.0
      && (forall d | d in r.value.1 :: fetch(d) == Some(r.value.1[d]))
    ensures r.Err? && r.error.UnreadableManifest? ==>
      Reachable(fetch, roots, r.error.digest) && fetch(r.error.digest).None?
    ensures r.Err? ==> !r.error.MissingReference?
  {
    hide Reachable, Sound, Closed, Progress, Edge, Children;
    var keep, manifests, error := Drain(fetch, roots, inventory);
    if error.Some? {
      return Err(error.value);
    }
    Finished(fetch, roots, inventory, keep, manifests);
    return Ok((keep, manifests));
  }

  /** Why a digest cannot be expanded. */
  ghost predicate Obstacle(fetch: Fetch, inventory: set<Digest>, d: Digest, error: Error) {
    && !Sound(fetch, inventory, d)
    && !error.MissingReference?
    && (error.UnreadableManifest? ==> error.digest == d && fetch(d).None?)
  }

  lemma Unsound(fetch: Fetch, inventory: set<Digest>, d: Digest)
    ensures Sound(fetch, inventory, d)
        <==> fetch(d).Some? && forall c | c in Children(fetch(d).value) :: c in inventory
  {
  }

  lemma Begins(fetch: Fetch, roots: set<Digest>, inventory: set<Digest>, pending: seq<Digest>)
    requires roots <= inventory && forall d :: d in pending <==> d in roots
    ensures Progress(fetch, roots, inventory, roots, pending, map[])
  {
    hide Reachable, Edge;
    forall d | d in roots ensures Reachable(fetch, roots, d) { RootsReachable(fetch, roots, d); }
  }

  lemma Popped(fetch: Fetch, roots: set<Digest>, inventory: set<Digest>,
               keep: set<Digest>, rest: seq<Digest>, manifests: map<Digest, Manifest>, digest: Digest)
    requires Progress(fetch, roots, inventory, keep, rest + [digest], manifests)
    ensures digest in inventory && Reachable(fetch, roots, digest)
    ensures digest in manifests ==> Progress(fetch, roots, inventory, keep, rest, manifests)
  {
    hide Reachable, Edge, Sound;
    assert digest in rest + [digest];
    forall d | d in keep ensures d in manifests || d in rest || d == digest {
      assert d in rest + [digest] ==> d in rest || d == digest;
    }
    hide Fetched;
  }

  lemma Finished(fetch: Fetch, roots: set<Digest>, inventory: set<Digest>,
                 keep: set<Digest>, manifests: map<Digest, Manifest>)
    requires Progress(fetch, roots, inventory, keep, [], manifests)
    ensures keep == manifests.Keys
    ensures forall d :: d in keep <==> Reachable(fetch, roots, d)
    ensures roots <= keep && Closed(fetch, keep)
    ensures forall s: set<Digest> | roots <= s && Closed(fetch, s) :: keep <= s
    ensures forall d | Reachable(fetch, roots, d) :: Sound(fetch, inventory, d)
    ensures forall d | d in manifests :: fetch(d) == Some(manifests[d])
  {
    hide Reachable, Edge, Sound;
    assert keep == manifests.Keys;
    ClosedIff(fetch, keep);
    hide Closed;
    ClosureIsLeast(fetch, roots, keep);
  }

  /** Kept digests are reachable, and each is fetched with its children kept, or still pending. */
  ghost predicate Progress(fetch: Fetch, roots: set<Digest>, inventory: set<Digest>,
                           keep: set<Digest>, pending: seq<Digest>, manifests: map<Digest, Manifest>) {
    && roots <= keep <= inventory
    && (forall d | d in keep :: Reachable(fetch, roots, d))
    && Queued(keep, pending, manifests.Keys)
    && Fetched(fetch, inventory, keep, manifests)
  }

  ghost predicate Queued(keep: set<Digest>, pending: seq<Digest>, fetched: set<Digest>) {
    && fetched <= keep
    && (forall d | d in pending :: d in keep)
    && (forall d | d in keep :: d in fetched || d in pending)
  }

  ghost predicate Fetched(fetch: Fetch, inventory: set<Digest>, keep: set<Digest>, manifests: map<Digest, Manifest>) {
    && (forall d | d in manifests :: fetch(d) == Some(manifests[d]) && Sound(fetch, inventory, d))
    && (forall d, c | d in manifests && Edge(fetch, d, c) :: c in keep)
  }

  lemma QueuedOne(keep: set<Digest>, rest: seq<Digest>, fetched: set<Digest>,
                  digest: Digest, keep': set<Digest>, pending': seq<Digest>)
    requires Queued(keep, rest + [digest], fetched)
    requires keep <= keep' && forall d :: d in pending' <==> d in rest || d in keep' - keep
    ensures Queued(keep', pending', fetched + {digest})
  {
    assert digest in rest + [digest];
    forall d | d in keep' ensures d == digest || d in fetched || d in pending' {
      assert d in keep ==> d in fetched || d in rest + [digest];
    }
  }

  lemma FetchedStep(fetch: Fetch, inventory: set<Digest>, keep: set<Digest>, manifests: map<Digest, Manifest>,
                    digest: Digest, keep': set<Digest>)
    requires Fetched(fetch, inventory, keep, manifests)
    requires fetch(digest).Some? && Sound(fetch, inventory, digest)
    requires keep' == keep + set c | c in Children(fetch(digest).value)
    ensures Fetched(fetch, inventory, keep', manifests[digest := fetch(digest).value])
  {
    hide Sound, Children;
  }

  lemma ChildReachable(fetch: Fetch, roots: set<Digest>, inventory: set<Digest>, d: Digest, c: Digest)
    requires Reachable(fetch, roots, d) && Sound(fetch, inventory, d) && c in Children(fetch(d).value)
    ensures Reachable(fetch, roots, c) && c in inventory
  {
    OneStepFurther(fetch, roots, d, c);
  }

  lemma FetchedOne(fetch: Fetch, roots: set<Digest>, inventory: set<Digest>,
                   keep: set<Digest>, rest: seq<Digest>, manifests: map<Digest, Manifest>,
                   digest: Digest, keep': set<Digest>, pending': seq<Digest>)
    requires Progress(fetch, roots, inventory, keep, rest + [digest], manifests)
    requires fetch(digest).Some? && Sound(fetch, inventory, digest)
    requires keep' == keep + set c | c in Children(fetch(digest).value)
    requires forall d :: d in pending' <==> d in rest || d in keep' - keep
    ensures Progress(fetch, roots, inventory, keep', pending', manifests[digest := fetch(digest).value])
  {
    assert digest in rest + [digest];
    hide Reachable, Queued, Fetched, Sound, Edge, Children;
    QueuedOne(keep, rest, manifests.Keys, digest, keep', pending');
    FetchedStep(fetch, inventory, keep, manifests, digest, keep');
    assert manifests[digest := fetch(digest).value].Keys == manifests.Keys + {digest};
    forall d | d in keep' ensures Reachable(fetch, roots, d) && d in inventory {
      if d !in keep {
        ChildReachable(fetch, roots, inventory, digest, d);
      }
    }
  }

  /** The versions outside the kept digests, one per identifier. */
  function Candidates(images: seq<Image>, keep: set<Digest>): map<Name, Image> {
    if images == [] then map[]
    else
      var last := images[|images| - 1];
      var rest := Candidates(images[..|images| - 1], keep);
      if last.digest in keep then rest else rest[last.id := last]
  }

  /** The plan keeps the least closed set that has the protected roots, with its manifests. */
  ghost predicate IsPlan(images: seq<Image>, required: set<Name>, fetch: Fetch, now: int, plan: Plan) {
    var roots := Roots(images, required, now);
    && (forall d :: d in plan.keep <==> Reachable(fetch, roots, d))
    && roots <= plan.keep && Closed(fetch, plan.keep)
    && (forall s: set<Digest> | roots <= s && Closed(fetch, s) :: plan.keep <= s)
    && plan.manifests.Keys == plan.keep
    && (forall d | d in plan.manifests :: fetch(d) == Some(plan.manifests[d]))
    && plan.candidates == Candidates(images, plan.keep)
  }

  /** Every required reference is listed, and everything the roots lead to is readable and listed. */
  ghost predicate Plannable(images: seq<Image>, required: set<Name>, fetch: Fetch, now: int) {
    && AllReferencesKnown(images, required)
    && forall d | Reachable(fetch, Roots(images, required, now), d) :: Sound(fetch, Digests(images), d)
  }

  /** No available row has this version or digest. */
  predicate Dangling(images: seq<Image>, ref: Name) {
    forall i | i in images && i.available :: i.digest != ref && !(i.version == ref && i.version.text != "")
  }

  /** An available row of this identifier, outside the kept digests. */
  predicate Removable(image: Image, id: Name, keep: set<Digest>) {
    image.available && image.id == id && image.digest !in keep
  }

  /** Offered are the identifiers of all available rows outside the kept digests, each with one of its rows. */
  ghost predicate Offers(images: seq<Image>, keep: set<Digest>, candidates: map<Name, Image>) {
    && (forall id :: id in candidates <==> exists i | i in images :: Removable(i, id, keep))
    && (forall id | id in candidates :: candidates[id] in images && Removable(candidates[id], id, keep))
  }

  /** A version names the digest of its last row. */
  ghost predicate LastTagged(images: seq<Image>, tag: Name, digest: Digest) {
    exists n: nat | n < |images| ::
      images[n].version == tag && images[n].digest == digest && forall k | n < k < |images| :: images[k].version != tag
  }

  lemma {:induction false} TagIsLast(images: seq<Image>, tag: Name)
    ensures tag in ByTag(images) <==> tag.text != "" && exists i | i in images :: i.version == tag
    ensures tag in ByTag(images) ==> LastTagged(images, tag, ByTag(images)[tag])
  {
    assert tag == NONE <==> tag.text == "";
    if images != [] {
      var init, last, n := images[..|images| - 1], images[|images| - 1], |images| - 1;
      TagIsLast(init, tag);
      assert images == init + [last];
      assert last in images && forall i | i in init :: i in images;
      if last.version == tag {
        assert images[n].version == tag;
      } else if tag in ByTag(init) {
        var k: nat :| k < |init| && init[k].version == tag && init[k].digest == ByTag(init)[tag]
                      && forall j | k < j < |init| :: init[j].version != tag;
        assert images[k] == init[k];
        assert forall j | k < j < |images| :: images[j].version != tag;
      }
    }
  }

  lemma DanglingIff(images: seq<Image>, required: set<Name>)
    ensures AllReferencesKnown(Available(images), required) <==> !exists ref | ref in required :: Dangling(images, ref)
  {
    AvailableRows(images);
    forall ref ensures ref in ByTag(Available(images)).Keys + Digests(Available(images)) <==> !Dangling(images, ref) {
      TagIsLast(Available(images), ref);
    }
    hide ByTag, Available, Digests, Dangling;
  }

  method ImagePlan(images: seq<Image>, required: set<Name>, fetch: Fetch, now: int)
    returns (r: Result<Plan, Error>)
    ensures r.Ok? <==> Plannable(Available(images), required, fetch, now)
    ensures r.Ok? ==> IsPlan(Available(images), required, fetch, now, r.value)
    ensures r == Err(MissingReference) <==> exists ref | ref in required :: Dangling(images, ref)
    ensures r.Ok? ==> Offers(images, r.value.keep, r.value.candidates)
  {
    hide Roots, Closed, Reachable, Sound, AllReferencesKnown, Dangling, Candidates, Available, Offers;
    DanglingIff(images, required);
    var available := Available(images);
    if !AllReferencesKnown(available, required) {
      return Err(MissingReference);
    }
    var roots := Roots(available, required, now);
    RootsListed(available, required, now);
    var closed := Close(fetch, roots, Digests(available));
    if closed.Err? {
      return Err(closed.error);
    }
    var (keep, manifests) := closed.value;
    RemovableListed(images, keep);
    return Ok(Plan(keep, Candidates(available, keep), manifests));
  }

  lemma {:induction false} TagsListed(images: seq<Image>)
    ensures ByTag(images).Values <= Digests(images)
    ensures forall t | t in ByTag(images) :: ByTag(images)[t] in Digests(images)
  {
    if images != [] {
      TagsListed(images[..|images| - 1]);
      assert forall i | i in images[..|images| - 1] :: i in images;
      assert images[|images| - 1] in images;
    }
  }

  lemma {:induction false} InsertKeepsAll(sorted: seq<Image>, image: Image)
    ensures multiset(InsertNewest(sorted, image)) == multiset(sorted) + multiset{image}
  {
    if sorted != [] && sorted[|sorted| - 1].created < image.created {
      InsertKeepsAll(sorted[..|sorted| - 1], image);
      assert sorted == sorted[..|sorted| - 1] + [sorted[|sorted| - 1]];
    }
  }

  lemma {:induction false} SortKeepsAll(images: seq<Image>)
    ensures multiset(NewestFirst(images)) == multiset(images)
  {
    if images != [] {
      SortKeepsAll(images[..|images| - 1]);
      InsertKeepsAll(NewestFirst(images[..|images| - 1]), images[|images| - 1]);
      assert images == images[..|images| - 1] + [images[|images| - 1]];
    }
  }

  predicate Sorted(images: seq<Image>) {
    forall i, j :: 0 <= i < j < |images| ==> images[i].created >= images[j].created
  }

  lemma {:induction false} InsertSorted(sorted: seq<Image>, image: Image)
    requires Sorted(sorted)
    ensures Sorted(InsertNewest(sorted, image))
  {
    if sorted != [] && sorted[|sorted| - 1].created < image.created {
      var init, last := sorted[..|sorted| - 1], sorted[|sorted| - 1];
      InsertSorted(init, image);
      InsertKeepsAll(init, image);
      var inner := InsertNewest(init, image);
      forall i | 0 <= i < |inner| ensures inner[i].created >= last.created {
        assert inner[i] in multiset(inner);
        assert inner[i] in init || inner[i] == image;
      }
    }
  }

  lemma {:induction false} SortSorted(images: seq<Image>)
    ensures Sorted(NewestFirst(images))
  {
    if images != [] {
      SortSorted(images[..|images| - 1]);
      InsertSorted(NewestFirst(images[..|images| - 1]), images[|images| - 1]);
    }
  }

  lemma {:induction false} ReleasedListed(images: seq<Image>)
    ensures forall i :: i in Released(images) <==> i in images && IsSha(i.version)
  {
    if images != [] {
      ReleasedListed(images[..|images| - 1]);
      assert images == images[..|images| - 1] + [images[|images| - 1]];
    }
  }

  lemma RecentListed(images: seq<Image>)
    ensures forall i | i in Recent(images) :: i in images && IsSha(i.version)
    ensures Sorted(NewestFirst(Released(images)))
    ensures forall i | i in images && IsSha(i.version) :: i in NewestFirst(Released(images))
  {
    var released := Released(images);
    var sorted := NewestFirst(released);
    ReleasedListed(images);
    SortKeepsAll(released);
    SortSorted(released);
    forall i ensures i in sorted <==> i in released {
      assert i in multiset(sorted) <==> i in multiset(released);
    }
  }

  lemma RootsListed(images: seq<Image>, required: set<Name>, now: int)
    requires AllReferencesKnown(images, required)
    ensures Roots(images, required, now) <= Digests(images)
  {
    TagsListed(images);
    RecentListed(images);
  }

  // ----- What deletion leaves -----

  /** The registry after deleting identifiers, in any order and stopped at any point. */
  function Without(images: seq<Image>, ids: set<Name>): seq<Image> {
    if images == [] then []
    else Without(images[..|images| - 1], ids)
         + if images[|images| - 1].id in ids then [] else [images[|images| - 1]]
  }

  lemma {:induction false} WithoutListed(images: seq<Image>, ids: set<Name>)
    ensures forall i :: i in Without(images, ids) <==> i in images && i.id !in ids
  {
    if images != [] {
      WithoutListed(images[..|images| - 1], ids);
      assert images == images[..|images| - 1] + [images[|images| - 1]];
    }
  }

  lemma {:induction false} CandidatesListed(images: seq<Image>, keep: set<Digest>)
    ensures forall id :: id in Candidates(images, keep) <==> exists i :: i in images && i.id == id && i.digest !in keep
    ensures forall id | id in Candidates(images, keep) ::
      var i := Candidates(images, keep)[id]; i in images && i.id == id && i.digest !in keep
  {
    if images != [] {
      var init, last := images[..|images| - 1], images[|images| - 1];
      CandidatesListed(init, keep);
      assert images == init + [last];
      forall id ensures id in Candidates(images, keep) <==> exists i :: i in images && i.id == id && i.digest !in keep {
        if id in Candidates(images, keep) {
          if id in Candidates(init, keep) {
            var i :| i in init && i.id == id && i.digest !in keep;
            assert i in images;
          } else {
            assert last in images;
          }
        }
      }
    }
  }

  lemma RemovableListed(images: seq<Image>, keep: set<Digest>)
    ensures Offers(images, keep, Candidates(Available(images), keep))
  {
    AvailableRows(images);
    CandidatesListed(Available(images), keep);
    hide Available, Candidates;
    forall id ensures id in Candidates(Available(images), keep) <==> exists i | i in images :: Removable(i, id, keep) {
      if i :| i in images && Removable(i, id, keep) { assert i in Available(images); }
    }
  }

  /** No identifier is shared by a kept and an unkept row. */
  ghost predicate Separate(images: seq<Image>, keep: set<Digest>) {
    forall i, j | i in images && j in images && i.id == j.id :: i.digest in keep <==> j.digest in keep
  }

  /** Deleting all candidates spares every kept row exactly when identifiers separate kept rows from
    * the others; deletion is by identifier, so a shared one would take kept rows along. */
  lemma KeptRowsSurviveIff(images: seq<Image>, keep: set<Digest>)
    ensures (forall i | i in images && i.digest in keep :: i in Without(images, Candidates(images, keep).Keys))
        <==> Separate(images, keep)
  {
    var ids := Candidates(images, keep).Keys;
    WithoutListed(images, ids);
    CandidatesListed(images, keep);
    if !Separate(images, keep) {
      var i, j :| i in images && j in images && i.id == j.id && i.digest in keep && j.digest !in keep;
      assert i.id in ids;
    }
  }

  lemma {:induction false} TagsSurvive(images: seq<Image>, ids: set<Name>, tag: Name)
    requires tag in ByTag(images)
    requires forall i | i in images && i.digest == ByTag(images)[tag] :: i.id !in ids
    ensures tag in ByTag(Without(images, ids)) && ByTag(Without(images, ids))[tag] == ByTag(images)[tag]
  {
    var init, last := images[..|images| - 1], images[|images| - 1];
    assert last in images && forall i | i in init :: i in images;
    var left := Without(init, ids);
    assert (left + [last])[..|left|] == left && left + [] == left;
    if last.version != tag || last.version == NONE {
      assert tag in ByTag(init) && ByTag(images)[tag] == ByTag(init)[tag];
      TagsSurvive(init, ids, tag);
      if last.id !in ids {
        assert Without(images, ids) == left + [last];
        assert ByTag(left + [last])
            == if last.version == NONE then ByTag(left) else ByTag(left)[last.version := last.digest];
      } else {
        assert Without(images, ids) == left;
      }
    }
  }

  lemma {:induction false} NoNewTags(images: seq<Image>, ids: set<Name>)
    ensures ByTag(Without(images, ids)).Keys <= ByTag(images).Keys
  {
    if images != [] {
      var left, last := Without(images[..|images| - 1], ids), images[|images| - 1];
      NoNewTags(images[..|images| - 1], ids);
      assert (left + [last])[..|left|] == left && left + [] == left;
    }
  }

  /** Rows of a kept digest are never deleted with the candidates. */
  lemma KeptRowsStay(images: seq<Image>, keep: set<Digest>, ids: set<Name>)
    requires Separate(images, keep) && ids <= Candidates(images, keep).Keys
    ensures forall i | i in images && i.digest in keep :: i.id !in ids && i in Without(images, ids)
    ensures keep * Digests(images) <= Digests(Without(images, ids))
  {
    CandidatesListed(images, keep);
    WithoutListed(images, ids);
  }

  lemma ReachableFromMore(fetch: Fetch, a: set<Digest>, b: set<Digest>, d: Digest)
    requires a <= b && Reachable(fetch, a, d)
    ensures Reachable(fetch, b, d)
  {
    var path :| IsPath(fetch, a, path) && path[|path| - 1] == d;
    assert IsPath(fetch, b, path);
  }

  lemma ReachableListed(fetch: Fetch, roots: set<Digest>, inventory: set<Digest>, d: Digest)
    requires roots <= inventory && Reachable(fetch, roots, d)
    requires forall e | Reachable(fetch, roots, e) :: Sound(fetch, inventory, e)
    ensures d in inventory
  {
    hide Sound, Edge;
    var path :| IsPath(fetch, roots, path) && path[|path| - 1] == d;
    if |path| > 1 {
      var init := path[..|path| - 1];
      assert IsPath(fetch, roots, init) && init[|init| - 1] == path[|path| - 2];
      EdgeListed(fetch, roots, inventory, path[|path| - 2], d);
    }
  }

  /** Whatever a plan keeps is listed. */
  lemma KeptListed(images: seq<Image>, required: set<Name>, fetch: Fetch, now: int, plan: Plan)
    requires Plannable(images, required, fetch, now) && IsPlan(images, required, fetch, now, plan)
    ensures plan.keep <= Digests(images)
  {
    RootsListed(images, required, now);
    hide Roots, Digests, Candidates, Edge, Closed, Sound, Reachable;
    forall d | d in plan.keep ensures d in Digests(images) {
      ReachableListed(fetch, Roots(images, required, now), Digests(images), d);
    }
  }

  lemma EdgeListed(fetch: Fetch, roots: set<Digest>, inventory: set<Digest>, from: Digest, to: Digest)
    requires Reachable(fetch, roots, from) && Edge(fetch, from, to)
    requires forall d | Reachable(fetch, roots, d) :: Sound(fetch, inventory, d)
    ensures to in inventory
  {
  }

  /** After deleting any of a plan's candidates, in any order and stopped anywhere, every required
    * reference still resolves as before and its whole manifest graph is still listed. */
  lemma RequiredSurvive(images: seq<Image>, required: set<Name>, fetch: Fetch, now: int, plan: Plan,
                        ids: set<Name>, ref: Name)
    requires Plannable(images, required, fetch, now) && IsPlan(images, required, fetch, now, plan)
    requires Separate(images, plan.keep) && ids <= plan.candidates.Keys && ref in required
    ensures Resolve(Without(images, ids), ref) == Resolve(images, ref)
    ensures forall d | Reachable(fetch, {Resolve(images, ref)}, d) :: d in Digests(Without(images, ids))
  {
    var roots := Roots(images, required, now);
    var digest := Resolve(images, ref);
    assert digest in roots;
    hide Roots, Resolve, Without, Digests, Candidates, Separate, Sound;
    KeptListed(images, required, fetch, now, plan);
    KeptRowsStay(images, plan.keep, ids);
    forall d | Reachable(fetch, {digest}, d) ensures d in Digests(Without(images, ids)) {
      ReachableFromMore(fetch, {digest}, roots, d);
    }
    RootsReachable(fetch, roots, digest);
    assert digest in plan.keep;
    ResolveStays(images, ids, ref);
  }

  lemma ResolveStays(images: seq<Image>, ids: set<Name>, ref: Name)
    requires forall i | i in images && i.digest == Resolve(images, ref) :: i.id !in ids
    ensures Resolve(Without(images, ids), ref) == Resolve(images, ref)
  {
    NoNewTags(images, ids);
    if ref in ByTag(images) {
      TagsSurvive(images, ids, ref);
    }
  }

  predicate ThreeNewerKept(sorted: seq<Image>, keep: set<Digest>, image: Image) {
    |sorted| > 3 && forall i :: 0 <= i < 3 ==> sorted[i].created >= image.created && sorted[i].digest in keep
  }

  lemma RootsKept(images: seq<Image>, required: set<Name>, fetch: Fetch, now: int, plan: Plan)
    requires IsPlan(images, required, fetch, now, plan)
    ensures Roots(images, required, now) <= plan.keep
  {
    var roots := Roots(images, required, now);
    hide Roots, Candidates, Closed, Reachable;
    forall d | d in roots ensures d in plan.keep { RootsReachable(fetch, roots, d); }
  }

  /** A released version is named by a full commit hash. */
  predicate FullHash(name: Name) {
    |name.text| == 40 && forall i | 0 <= i < 40 :: name.text[i] in "0123456789abcdef"
  }

  lemma HashIff(name: Name)
    ensures IsSha(name) <==> FullHash(name)
  {
    forall c: char ensures c in "0123456789abcdef" <==> ('0' <= c <= '9' || 'a' <= c <= 'f') { HexDigit(c); }
    if IsSha(name) {
      forall i | 0 <= i < 40 ensures name.text[i] in "0123456789abcdef" { assert name.text[i] in name.text; }
    }
    if FullHash(name) {
      forall c | c in name.text ensures '0' <= c <= '9' || 'a' <= c <= 'f' {
        var i :| 0 <= i < |name.text| && name.text[i] == c;
      }
    }
  }

  lemma HexDigit(c: char)
    ensures c in "0123456789abcdef" <==> ('0' <= c <= '9' || 'a' <= c <= 'f')
  {
    var hex := "0123456789abcdef";
    assert forall i | 0 <= i < 10 :: hex[i] as int == '0' as int + i;
    assert forall i | 10 <= i < 16 :: hex[i] as int == 'a' as int + i - 10;
    if '0' <= c <= '9' { assert hex[c as int - '0' as int] == c; }
    if 'a' <= c <= 'f' { assert hex[c as int - 'a' as int + 10] == c; }
  }

  /** The reference is a version, whose last row has the digest, or no version but the digest itself. */
  ghost predicate RefersTo(images: seq<Image>, ref: Name, d: Digest) {
    || (ref.text != "" && LastTagged(images, ref, d))
    || (d == ref && !(ref.text != "" && exists i | i in images :: i.version == ref))
  }

  /** Less than two days old, named otherwise than by a commit hash, or one of the three newest released rows. */
  predicate Protected(images: seq<Image>, now: int, image: Image) {
    || now - image.created < 172800
    || (image.version.text != "" && !FullHash(image.version))
    || exists k | 0 <= k < 3 && k < |NewestFirst(Released(images))| :: NewestFirst(Released(images))[k] == image
  }

  /** The released rows, newest first, are all rows named by a commit hash, each as often as it is listed. */
  lemma {:induction false} ReleasedAre(images: seq<Image>, image: Image)
    ensures multiset(NewestFirst(Released(images)))[image]
         == if FullHash(image.version) then multiset(images)[image] else 0
    ensures Sorted(NewestFirst(Released(images)))
  {
    RecentListed(images);
    SortKeepsAll(Released(images));
    ReleasedCount(images, image);
  }

  lemma {:induction false} ReleasedCount(images: seq<Image>, image: Image)
    ensures multiset(Released(images))[image] == if FullHash(image.version) then multiset(images)[image] else 0
  {
    if images != [] {
      var init, last := images[..|images| - 1], images[|images| - 1];
      ReleasedCount(init, image);
      HashIff(last.version);
      hide IsSha, FullHash;
      assert images == init + [last];
    }
  }

  /** What is protected, row by row. */
  lemma RootsAre(images: seq<Image>, required: set<Name>, now: int, d: Digest)
    ensures d in Roots(images, required, now) <==>
      || (exists ref | ref in required :: RefersTo(images, ref, d))
      || (exists i | i in images :: i.digest == d && Protected(images, now, i))
  {
    forall ref ensures Resolve(images, ref) == d <==> RefersTo(images, ref, d) { ResolveIs(images, ref, d); }
    forall i ensures Unknown(i) <==> i.version.text != "" && !FullHash(i.version) {
      HashIff(i.version);
      assert i.version == NONE <==> i.version.text == "";
    }
    RecentListed(images);
    var sorted := NewestFirst(Released(images));
    assert forall i :: i in Recent(images) <==> exists k | 0 <= k < 3 && k < |sorted| :: sorted[k] == i;
    hide Resolve, RefersTo, FullHash, IsSha, Unknown, NewestFirst, Released;
  }

  lemma ResolveIs(images: seq<Image>, ref: Name, d: Digest)
    ensures Resolve(images, ref) == d <==> RefersTo(images, ref, d)
  {
    TagIsLast(images, ref);
    if ref in ByTag(images) && LastTagged(images, ref, d) {
      SameLast(images, ref, d, ByTag(images)[ref]);
    }
    hide ByTag, LastTagged;
  }

  lemma SameLast(images: seq<Image>, tag: Name, d: Digest, e: Digest)
    requires LastTagged(images, tag, d) && LastTagged(images, tag, e)
    ensures d == e
  {
  }

  /** The three newest released versions, and every version younger than two days or with an unknown
    * name, are kept whatever is required. */
  lemma YoungAndReleasedKept(images: seq<Image>, required: set<Name>, fetch: Fetch, now: int, plan: Plan,
                             image: Image)
    requires IsPlan(images, required, fetch, now, plan)
    requires image in images && image.digest !in plan.keep
    ensures image.created <= now - 172800 && (image.version.text == "" || FullHash(image.version))
    ensures image.version != NONE ==> ThreeNewerKept(NewestFirst(Released(images)), plan.keep, image)
  {
    RootsKept(images, required, fetch, now, plan);
    HashIff(image.version);
    hide IsPlan, Resolve, IsSha, FullHash;
    if image.version != NONE {
      RecentListed(images);
      ThreeNewer(images, plan.keep, image);
    }
  }

  lemma ThreeNewer(images: seq<Image>, keep: set<Digest>, image: Image)
    requires Digests(Recent(images)) <= keep && image.digest !in keep
    requires image in NewestFirst(Released(images)) && Sorted(NewestFirst(Released(images)))
    ensures ThreeNewerKept(NewestFirst(Released(images)), keep, image)
  {
    hide NewestFirst, Released;
    var sorted := NewestFirst(Released(images));
    var k :| 0 <= k < |sorted| && sorted[k] == image;
    assert forall i | i in Recent(images) :: i.digest in keep;
    assert |sorted| <= 3 || k < 3 ==> image in Recent(images);
    assert sorted[0] in Recent(images) && sorted[1] in Recent(images) && sorted[2] in Recent(images);
  }
}
