/** The per-account operation lock (apps/backend/src/deploy/account-mutation.interceptor.ts). */
module AccountLock {
  datatype Key = Account(id: nat) | Registration

  datatype Verb = Get | Head | Post | Put | Patch | Delete | OtherVerb

  /** A request of a signed-in user, or of nobody. */
  datatype Request = Request(user: int, verb: Verb, path: string)

  const ANONYMOUS := -1

  // ----- Which requests are gated, and by which keys -----

  function LowerChar(c: char): char {
    if 'A' <= c <= 'Z' then (c as int + 32) as char else c
  }

  function Lower(s: string): (r: string)
    ensures |r| == |s|
  {
    if s == "" then "" else [LowerChar(s[0])] + Lower(s[1..])
  }

  function TrimSlashes(s: string): string {
    if s != "" && s[|s| - 1] == '/' then TrimSlashes(s[..|s| - 1]) else s
  }

  function Normalized(path: string): string {
    var lower := Lower(path);
    TrimSlashes(if "/api/" <= lower then lower[4..] else lower)
  }

  const RECOVERY_PREFIX := "/admin/deployment-recovery/"
  const RECOVERY_SUFFIX := "/release"

  /** The release route with one non-empty segment between its fixed parts. */
  predicate IsRecovery(path: string) {
    && |path| > |RECOVERY_PREFIX| + |RECOVERY_SUFFIX|
    && RECOVERY_PREFIX <= path
    && path[|path| - |RECOVERY_SUFFIX|..] == RECOVERY_SUFFIX
    && '/' !in path[|RECOVERY_PREFIX|..|path| - |RECOVERY_SUFFIX|]
  }

  predicate Mutates(verb: Verb) { verb in {Post, Put, Patch, Delete} }

  /** The keys a request must hold; none when it is not gated. */
  function Keys(req: Request): set<Key> {
    var path := Normalized(req.path);
    if req.user < 0 || !Mutates(req.verb)
       || !(IsRecovery(path) || "/deploy/" <= path || path == "/deploy" || (path == "/account" && req.verb == Delete))
    then {}
    else {Account(req.user)}
         + if IsRecovery(path) || path == "/deploy/register" || path == "/deploy" || path == "/account"
           then {Registration} else {}
  }

  /** The release route names one account, whatever its name is. */
  lemma RecoveryIff(path: string)
    ensures IsRecovery(path) <==> exists name: string ::
      name != "" && '/' !in name && path == "/admin/deployment-recovery/" + name + "/release"
  {
    var head, tail := "/admin/deployment-recovery/", "/release";
    if IsRecovery(path) {
      var name := path[|head|..|path| - |tail|];
      assert path == head + name + tail;
    }
    if name: string :| name != "" && '/' !in name && path == head + name + tail {
      assert path[..|head|] == head && path[|head|..|path| - |tail|] == name && path[|path| - |tail|..] == tail;
    }
  }

  /** Capital letters become small ones, in their order; everything else stays. */
  lemma LowerCharIs(c: char)
    ensures var small := LowerChar(c);
      if c < 'A' || 'Z' < c then small == c
      else 'a' <= small <= 'z' && small as int - 'a' as int == c as int - 'A' as int
  {
  }

  lemma {:induction false} LowerConcat(a: string, b: string)
    ensures Lower(a + b) == Lower(a) + Lower(b)
  {
    if a == "" {
      assert a + b == b;
    } else {
      assert (a + b)[1..] == a[1..] + b;
      LowerConcat(a[1..], b);
    }
  }

  lemma {:induction false} LowerSlash(s: string)
    ensures '/' in Lower(s) <==> '/' in s
  {
    if s != "" {
      LowerSlash(s[1..]);
      assert s == [s[0]] + s[1..];
    }
  }

  predicate LowerCase(s: string) { forall i | 0 <= i < |s| :: !('A' <= s[i] <= 'Z') }

  lemma {:induction false} LowerSame(s: string)
    requires LowerCase(s)
    ensures Lower(s) == s
  {
    if s != "" {
      assert s == [s[0]] + s[1..];
      LowerSame(s[1..]);
    }
  }

  lemma {:induction false} LowerAt(s: string, i: nat)
    requires i < |s|
    ensures Lower(s)[i] == LowerChar(s[i])
  {
    if i > 0 { LowerAt(s[1..], i - 1); }
  }

  lemma Stripped(lower: string)
    requires lower != "" && lower[0] == '/' && lower[|lower| - 1] != '/'
    ensures var whole := "/api" + lower; "/api/" <= whole && TrimSlashes(whole[4..]) == lower
  {
    assert ("/api" + lower)[4..] == lower;
  }

  lemma LowerApi(path: string)
    requires path != "" && path[0] == '/' && path[|path| - 1] != '/'
    ensures var lower := Lower(path);
      Lower("/api" + path) == "/api" + lower && lower != "" && lower[0] == '/' && lower[|lower| - 1] != '/'
  {
    hide Lower;
    LowerSame("/api");
    LowerConcat("/api", path);
    LowerAt(path, 0);
    LowerAt(path, |path| - 1);
  }

  lemma NormalizedOf(path: string, lower: string)
    requires lower == Lower(path)
    ensures Normalized(path) == TrimSlashes(if "/api/" <= lower then lower[4..] else lower)
  {
    hide Lower, TrimSlashes;
  }

  lemma ApiPath(path: string)
    requires path != "" && path[0] == '/' && path[|path| - 1] != '/'
    ensures Normalized("/api" + path) == Lower(path)
  {
    hide Lower, TrimSlashes, Normalized;
    LowerApi(path);
    Stripped(Lower(path));
    NormalizedOf("/api" + path, "/api" + Lower(path));
  }

  /** Slashes at the end of a path make no difference. */
  lemma TrailingSlash(path: string)
    requires |path| > 4
    ensures Normalized(path + "/") == Normalized(path)
  {
    LowerConcat(path, "/");
    LowerSame("/");
    var lower := Lower(path);
    assert Lower(path + "/") == lower + "/";
    hide Lower;
    assert "/api/" <= lower + "/" <==> "/api/" <= lower;
    var rest := if "/api/" <= lower then lower[4..] else lower;
    assert (if "/api/" <= lower + "/" then (lower + "/")[4..] else lower + "/") == rest + "/";
    OneSlashLess(rest);
    NormalizedOf(path, lower);
    NormalizedOf(path + "/", lower + "/");
    hide TrimSlashes, Normalized;
  }

  lemma OneSlashLess(s: string)
    ensures TrimSlashes(s + "/") == TrimSlashes(s)
  {
    assert (s + "/")[..|s|] == s;
  }

  lemma ReleasePath(name: string)
    requires name != "" && '/' !in name
    ensures IsRecovery(Normalized("/api" + (RECOVERY_PREFIX + name + RECOVERY_SUFFIX)))
  {
    hide Lower, Normalized;
    var path := RECOVERY_PREFIX + Lower(name) + RECOVERY_SUFFIX;
    ApiPath(RECOVERY_PREFIX + name + RECOVERY_SUFFIX);
    LowerConcat(RECOVERY_PREFIX + name, RECOVERY_SUFFIX);
    LowerConcat(RECOVERY_PREFIX, name);
    LowerSame(RECOVERY_PREFIX);
    LowerSame(RECOVERY_SUFFIX);
    LowerSlash(name);
    assert path[|RECOVERY_PREFIX|..|path| - |RECOVERY_SUFFIX|] == Lower(name);
  }

  /** Which requests are gated: those of a signed-in user that may change something below /deploy, the deletion of
    * the account, and the release of a reservation. They hold the account's key; and the registration key too if
    * they register or delete the app, delete the account, or release a reservation. */
  lemma KeysIff(req: Request)
    ensures var path, changes := Normalized(req.path), req.verb != Get && req.verb != Head && req.verb != OtherVerb;
      var registers := path == "/deploy" || path == "/deploy/register" || (path == "/account" && req.verb == Delete)
                       || IsRecovery(path);
      var gated := req.user >= 0 && changes && (registers || "/deploy/" <= path);
      && (gated <==> Keys(req) != {})
      && (gated ==> Account(req.user) in Keys(req))
      && (Registration in Keys(req) <==> gated && registers)
      && forall k | k in Keys(req) :: k == Registration || k == Account(req.user)
  {
    var path := Normalized(req.path);
    assert path == "/deploy/register" ==> "/deploy/" <= path;
    assert path == "/account" ==> path[1] != "/deploy/"[1];
    hide Normalized, IsRecovery;
  }

  // ----- The set of active keys -----

  ghost function Held(inFlight: map<nat, set<Key>>): set<Key> {
    set id, k | id in inFlight && k in inFlight[id] :: k
  }

  ghost predicate Disjoint(inFlight: map<nat, set<Key>>) {
    forall a, b | a in inFlight && b in inFlight && a != b :: inFlight[a] !! inFlight[b]
  }

  lemma HeldOneMore(inFlight: map<nat, set<Key>>, id: nat, keys: set<Key>)
    requires id !in inFlight
    ensures Held(inFlight[id := keys]) == Held(inFlight) + keys
  {
    var more := inFlight[id := keys];
    forall k ensures k in Held(more) <==> k in Held(inFlight) || k in keys {
      if k in Held(inFlight) {
        var other :| other in inFlight && k in inFlight[other];
        assert other in more && k in more[other];
      }
      if k in keys {
        assert k in more[id];
      }
    }
  }

  lemma HeldOneLess(inFlight: map<nat, set<Key>>, id: nat)
    requires id in inFlight && Disjoint(inFlight)
    ensures Held(inFlight - {id}) == Held(inFlight) - inFlight[id]
    ensures Disjoint(inFlight - {id})
  {
    var less := inFlight - {id};
    HeldOneMore(less, id, inFlight[id]);
    assert inFlight == less[id := inFlight[id]];
    forall other | other in less ensures inFlight[other] !! inFlight[id] { }
  }

  class AccountMutationInterceptor {
    var active: set<Key>
    /** The gated requests still running, by identity, with the keys each of them took. */
    ghost var inFlight: map<nat, set<Key>>

    ghost predicate Valid()
      reads this
    {
      active == Held(inFlight) && Disjoint(inFlight)
    }

    constructor ()
      ensures Valid() && inFlight == map[]
    {
      active, inFlight := {}, map[];
    }

    /** Take all keys or none. */
    method Begin(ghost id: nat, req: Request) returns (accepted: bool)
      requires Valid() && id !in inFlight
      modifies this
      ensures Valid()
      ensures accepted <==> Keys(req) !! old(active)
      ensures active == if accepted then old(active) + Keys(req) else old(active)
      ensures inFlight == if accepted && Keys(req) != {} then old(inFlight)[id := Keys(req)] else old(inFlight)
    {
      var keys := Keys(req);
      var left := keys;
      while left != {}
        invariant left <= keys && (keys - left) !! active
      {
        var key :| key in left;
        if key in active {
          return false;
        }
        left := left - {key};
      }
      assert keys - left == keys;
      active := active + keys;
      if keys != {} {
        HeldOneMore(inFlight, id, keys);
        inFlight := inFlight[id := keys];
      }
      return true;
    }

    /** Completion, by result or by error, frees the request's own keys and no others. */
    method Complete(id: nat, req: Request)
      requires Valid() && id in inFlight && inFlight[id] == Keys(req)
      modifies this
      ensures Valid()
      ensures inFlight == old(inFlight) - {id}
      ensures forall other | other in inFlight :: inFlight[other] <= active
      ensures active == old(active) - Keys(req)
    {
      HeldOneLess(inFlight, id);
      active := active - Keys(req);
      inFlight := inFlight - {id};
    }
  }
}
