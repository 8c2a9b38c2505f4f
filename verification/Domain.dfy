/** The custom domain of an application (apps/backend/src/domain/domain.service.ts and domain.repository.ts),
  * and the deploy repository that routes it.
  *
  * An account has one application. The account lock keeps its changing requests apart, but status reads run
  * between their steps, with a row they read earlier. Each method below is the code between two awaited
  * answers; the process may stop before any of them, and a commit may land although it is reported as
  * failed.
  */
module Domain {
  import opened Common
  import opened Lines
  import opened Kustomization

  datatype App = App(name: string)
  datatype Host = Host(name: string)
  datatype Reason = Reason(text: string)
  type Sha = nat
  type Id = nat

  datatype Status = Pending | Verified | Applying | Active | Error

  datatype Row = Row(id: Id, domain: Host, status: Status, appliedCommit: Option<Sha>, verifiedAt: Option<int>,
                     lastError: Option<Reason>, errorReason: Option<Reason>)

  /** What a mutation waits for: DNS answers, the commit that adds the ingress, the commit that removes it. */
  datatype Phase = Idle | AwaitDns(id: Id) | AwaitAdd(id: Id) | AwaitRemove(id: Id) | Removed(id: Id)

  /** The code host's answer to a commit: whether it landed, and the commit if it says so. A commit that would
    * change nothing lands at once, and the answer names the head there is. */
  datatype Answer = Refused | LandedSilently | Landed(sha: Sha)

  datatype RegisterError = AlreadyRegistered | Taken
  datatype VerifyError = NotRegistered | Cooldown

  const COOLDOWN := 30_000

  /** The files of the deploy repository that matter: kustomization.yaml, and the ingress's host. */
  datatype Text = Text(content: string)
  datatype Repo = Repo(text: Text, ingress: Option<Host>)

  // ----- The repository's rules about one row -----

  /** An update keeps what it is not given. */
  function Or<T>(a: Option<T>, b: Option<T>): Option<T> { if a.Some? then a else b }

  function Updated(r: Row, status: Status, lastError: Option<Reason>, reason: Option<Reason>,
                   verifiedAt: Option<int>): Row {
    r.(status := status, lastError := Or(lastError, r.lastError), errorReason := Or(reason, r.errorReason),
       verifiedAt := Or(verifiedAt, r.verifiedAt))
  }

  /** The row after a commit that failed, or that the code host says it made. */
  function Failed(r: Row, message: Reason): Row { Updated(r, Error, Some(message), None, None) }

  function Answered(r: Row, answer: Answer, message: Reason): Row {
    if answer.Landed? then Updated(r.(appliedCommit := Some(answer.sha)), Applying, None, None, None)
    else Failed(r, message)
  }

  /** A landed commit is recorded, and the row applies; any other answer is an error, and changes nothing else. */
  lemma AnsweredIs(r: Row, answer: Answer, message: Reason)
    ensures Answered(r, answer, message) ==
      if answer.Landed? then r.(status := Applying, appliedCommit := Some(answer.sha))
      else r.(status := Error, lastError := Some(message))
  {
  }

  /** Checks of one domain are half a minute apart; a time of zero counts as none. */
  predicate TooSoon(last: map<Host, int>, domain: Host, now: int) {
    domain in last && last[domain] != 0 && now - last[domain] < COOLDOWN
  }

  predicate InPhase(r: Row) { r.status == Applying || r.status == Active }

  /** The row whose ingress a redeploy must render again. */
  function FindForRender(row: Option<Row>): Option<Row> {
    if row.None? then None
    else if InPhase(row.value) then row
    else if row.value.appliedCommit.Some? then row
    else None
  }

  /** A row is applying or active only after a commit and a verification, and committed only when verified. */
  predicate SoundRow(r: Row) {
    && (InPhase(r) ==> r.appliedCommit.Some?)
    && (r.appliedCommit.Some? ==> r.verifiedAt.Some?)
  }

  lemma FindForRenderIff(row: Option<Row>)
    requires row.Some? ==> SoundRow(row.value)
    ensures FindForRender(row).Some? <==> row.Some? && row.value.appliedCommit.Some?
    ensures FindForRender(row).Some? ==> FindForRender(row) == row
  {
  }

  // ----- The deploy repository -----

  predicate OneLine(app: App) { NL !in app.name }

  /** The domain is served: the ingress is listed, and its file names the domain. */
  predicate Routed(repo: Repo, app: App, domain: Host) { Listed(repo, app) && repo.ingress == Some(domain) }

  predicate Listed(repo: Repo, app: App) { Lists(Split(repo.text.content), Path(app.name)) }

  function WithIngress(repo: Repo, app: App, domain: Host): Repo {
    Repo(Text(AddText(repo.text.content, app.name)), Some(domain))
  }

  function WithoutIngress(repo: Repo, app: App): Repo { Repo(Text(RemoveText(repo.text.content, app.name)), None) }

  function Rendered(repo: Repo, app: App, domain: Option<Host>, storage: bool): Repo {
    Repo(Text(Render(app.name, domain.Some?, storage)), if domain.Some? then domain else repo.ingress)
  }

  /** Adding a domain changes the repository exactly when the domain is not served. */
  lemma AddChangesIff(repo: Repo, app: App, domain: Host)
    requires OneLine(app)
    ensures WithIngress(repo, app, domain) == repo <==> Routed(repo, app, domain)
    ensures Routed(WithIngress(repo, app, domain), app, domain)
  {
    AddLists(repo.text.content, app.name);
    ListedText(repo.text.content, app.name);
    hide AddText, Lists, Split;
  }

  lemma ListedText(text: string, app: string)
    ensures Lists(Split(text), Path(app)) ==> AddText(text, app) == text
  {
    EntryOf(app);
    hide Trim, Split;
  }

  /** Removing leaves the domain unserved, and nothing to remove again. */
  lemma RemoveSettles(repo: Repo, app: App, domain: Host)
    ensures !Routed(WithoutIngress(repo, app), app, domain)
    ensures WithoutIngress(WithoutIngress(repo, app), app) == WithoutIngress(repo, app)
  {
    RemoveTwice(repo.text.content, app.name);
    hide RemoveText, Lists, Split;
  }

  lemma RemoveTwice(text: string, app: string)
    ensures RemoveText(RemoveText(text, app), app) == RemoveText(text, app)
  {
    var kept := Kept(Split(text), app);
    RemoveSame(RemoveText(text, app), app);
    if kept != [] {
      RemoveIs(text, app);
      forall l | l in kept ensures !Drops(l, app) { KeptHas(Split(text), app, l); }
      KeptSame(kept, app);
    } else {
      assert RemoveText(text, app) == [];
      assert Split([]) == [Line([])];
      EmptyKept(app);
      KeptAll([Line([])], app);
    }
  }

  lemma RenderedRouted(repo: Repo, app: App, domain: Option<Host>, storage: bool)
    requires OneLine(app)
    ensures var next := Rendered(repo, app, domain, storage);
      if domain.Some? then Routed(next, app, domain.value) else !Listed(next, app)
  {
    AddedRendering(app.name, storage);
    hide Render, Lists, Split;
  }

  // ----- What always holds -----

  predicate Recorded(row: Option<Row>) { row.Some? && row.value.appliedCommit.Some? }

  /** A row is sound. With a recorded commit it is served exactly while no removal has landed since its ingress
    * was last written; without one, a domain is served exactly if it is the stray one. */
  ghost predicate Consistent(app: App, row: Option<Row>, repo: Repo, unrouted: bool, stray: Option<Host>) {
    && OneLine(app)
    && (row.Some? ==> SoundRow(row.value))
    && (Recorded(row) ==> stray.None? && (Routed(repo, app, row.value.domain) <==> !unrouted))
    && (!Recorded(row) ==> forall h :: Routed(repo, app, h) <==> stray == Some(h))
    && (unrouted ==> Recorded(row) && WithoutIngress(repo, app) == repo)
  }

  /** The host that is served without a recorded commit, once a row's ingress has landed. */
  function StrayAfterAdd(row: Row): Option<Host> { if row.appliedCommit.Some? then None else Some(row.domain) }

  /** Errors keep a row what it was, with respect to the repository. */
  lemma ErrorKeeps(app: App, r: Row, repo: Repo, unrouted: bool, stray: Option<Host>, message: Reason)
    requires Consistent(app, Some(r), repo, unrouted, stray)
    ensures Consistent(app, Some(Failed(r, message)), repo, unrouted, stray)
    ensures Failed(r, message).id == r.id && Failed(r, message).appliedCommit == r.appliedCommit
  {
  }

  lemma AddKeeps(app: App, r: Row, repo: Repo, unrouted: bool, stray: Option<Host>)
    requires Consistent(app, Some(r), repo, unrouted, stray)
    ensures Consistent(app, Some(r), WithIngress(repo, app, r.domain), false, StrayAfterAdd(r))
    ensures Routed(WithIngress(repo, app, r.domain), app, r.domain)
  {
    AddChangesIff(repo, app, r.domain);
    forall h ensures Routed(WithIngress(repo, app, r.domain), app, h) ==> h == r.domain { }
    hide Routed, WithIngress, WithoutIngress;
  }

  lemma AnswerKeeps(app: App, r: Row, repo: Repo, unrouted: bool, stray: Option<Host>, answer: Answer, message: Reason)
    requires Consistent(app, Some(r), repo, unrouted, stray) && r.verifiedAt.Some?
    requires answer.Landed? ==> !unrouted && Routed(repo, app, r.domain)
    ensures Consistent(app, Some(Answered(r, answer, message)), repo, unrouted,
                       if answer.Landed? then None else stray)
    ensures Answered(r, answer, message).id == r.id
    ensures r.appliedCommit.Some? ==> Answered(r, answer, message).appliedCommit.Some?
  {
    hide Routed, WithoutIngress;
  }

  lemma StrayAnswered(r: Row, answer: Answer, message: Reason)
    ensures StrayAfterAdd(Answered(r, answer, message)) == if answer.Landed? then None else StrayAfterAdd(r)
  {
  }

  lemma AddAnswerKeeps(app: App, r: Row, repo: Repo, unrouted: bool, stray: Option<Host>, answer: Answer,
                       message: Reason)
    requires Consistent(app, Some(r), repo, unrouted, stray) && r.verifiedAt.Some?
    ensures var r' := Answered(r, answer, message);
      && r'.id == r.id && (r.appliedCommit.Some? ==> r'.appliedCommit.Some?)
      && (answer == Refused ==> Consistent(app, Some(r'), repo, unrouted, stray))
      && (answer != Refused ==> Consistent(app, Some(r'), WithIngress(repo, app, r.domain), false, StrayAfterAdd(r')))
    ensures Routed(WithIngress(repo, app, r.domain), app, r.domain)
  {
    hide Routed, WithIngress, OneLine, Consistent, Answered, StrayAfterAdd;
    AddKeeps(app, r, repo, unrouted, stray);
    StrayAnswered(r, answer, message);
    if answer == Refused {
      AnswerKeeps(app, r, repo, unrouted, stray, answer, message);
    } else {
      AnswerKeeps(app, r, WithIngress(repo, app, r.domain), false, StrayAfterAdd(r), answer, message);
    }
  }

  lemma RemoveKeeps(app: App, r: Row, repo: Repo, unrouted: bool)
    requires Consistent(app, Some(r), repo, unrouted, None) && r.appliedCommit.Some?
    ensures Consistent(app, Some(r), WithoutIngress(repo, app), true, None)
    ensures !Routed(WithoutIngress(repo, app), app, r.domain)
  {
    RemoveSettles(repo, app, r.domain);
    hide Routed, WithIngress, WithoutIngress;
  }

  /** Once a removal has landed no domain is served, with or without the row. */
  lemma DropKeeps(app: App, r: Row, repo: Repo)
    requires Consistent(app, Some(r), repo, true, None)
    ensures Consistent(app, None, repo, false, None)
    ensures forall h :: !Routed(repo, app, h)
  {
    assert WithoutIngress(repo, app).ingress.None?;
    hide WithoutIngress, Listed;
  }

  function StrayAfterUnregister(row: Option<Row>, unrouted: bool, stray: Option<Host>): Option<Host> {
    if Recorded(row) then (if unrouted then None else Some(row.value.domain)) else stray
  }

  lemma UnregisterKeeps(app: App, row: Option<Row>, repo: Repo, unrouted: bool, stray: Option<Host>)
    requires Consistent(app, row, repo, unrouted, stray)
    ensures Consistent(app, None, repo, false, StrayAfterUnregister(row, unrouted, stray))
  {
    if unrouted { DropKeeps(app, row.value, repo); }
    hide WithoutIngress, Listed;
  }

  lemma StrayOfRecorded(app: App, row: Option<Row>, repo: Repo, unrouted: bool, stray: Option<Host>)
    ensures Consistent(app, row, repo, unrouted, stray) && Recorded(row) ==> stray.None?
  {
  }

  function RowAfterRemoval(r: Row, answer: Answer, message: Reason): Row {
    if answer.Landed? then r else Failed(r, message)
  }

  function RepoAfterRemoval(repo: Repo, app: App, answer: Answer): Repo {
    if answer == Refused then repo else WithoutIngress(repo, app)
  }

  lemma RemovalIs(r: Row, repo: Repo, app: App, answer: Answer, message: Reason)
    ensures RowAfterRemoval(r, answer, message) ==
      if answer.Landed? then r else r.(status := Error, lastError := Some(message))
    ensures RepoAfterRemoval(repo, app, answer) ==
      if answer == Refused then repo else Repo(Text(RemoveText(repo.text.content, app.name)), None)
  {
  }

  lemma RemovalKeeps(app: App, r: Row, repo: Repo, unrouted: bool, stray: Option<Host>, answer: Answer,
                     message: Reason)
    requires Consistent(app, Some(r), repo, unrouted, stray) && r.appliedCommit.Some?
    ensures var r' := RowAfterRemoval(r, answer, message);
      && r'.id == r.id && r'.appliedCommit == r.appliedCommit
      && Consistent(app, Some(r'), RepoAfterRemoval(repo, app, answer), unrouted || answer != Refused, stray)
    ensures answer != Refused ==> !Routed(RepoAfterRemoval(repo, app, answer), app, r.domain)
  {
    StrayOfRecorded(app, Some(r), repo, unrouted, stray);
    RemoveKeeps(app, r, repo, unrouted);
    ErrorKeeps(app, r, repo, unrouted, None, message);
    ErrorKeeps(app, r, WithoutIngress(repo, app), true, None, message);
    hide WithoutIngress, Routed, Consistent, Failed;
  }

  /** What a redeploy renders the domain from. */
  function KeptDomain(row: Option<Row>): Option<Host> {
    var kept := FindForRender(row);
    if kept.Some? then Some(kept.value.domain) else None
  }

  /** A domain whose ingress was ever committed is served; any other is not listed. */
  predicate Restored(app: App, row: Option<Row>, repo: Repo) {
    if row.Some? && row.value.appliedCommit.Some? then Routed(repo, app, row.value.domain) else !Listed(repo, app)
  }

  lemma RenderKeeps(app: App, row: Option<Row>, repo: Repo, unrouted: bool, stray: Option<Host>, storage: bool)
    requires Consistent(app, row, repo, unrouted, stray)
    ensures var next := Rendered(repo, app, KeptDomain(row), storage);
      && Consistent(app, row, next, false, None)
      && Restored(app, row, next)
  {
    FindForRenderIff(row);
    hide Listed, Rendered, WithoutIngress;
    RenderedRouted(repo, app, KeptDomain(row), storage);
  }

  // ----- The service -----

  class CustomDomain {
    const app: App
    var row: Option<Row>
    var nextId: Id
    var lastVerify: map<Host, int>
    var repo: Repo
    var phase: Phase
    /** Rows that a status read may have seen applying. */
    ghost var seen: set<Id>
    /** A removal has landed since the ingress was last added or rendered, and the row is still there. */
    ghost var unrouted: bool
    /** The host whose ingress has landed without a recorded commit, or outlived its row. */
    ghost var stray: Option<Host>

    ghost predicate Valid()
      reads this
    {
      && Consistent(app, row, repo, unrouted, stray)
      && (forall id | id in seen :: id < nextId)
      && (row.Some? ==> row.value.id < nextId && (row.value.id in seen ==> row.value.appliedCommit.Some?))
      && PhaseFits()
    }

    /** The account lock: a mutation in progress is about the row there is. */
    ghost predicate PhaseFits()
      reads this
    {
      match phase
      case Idle => true
      case AwaitDns(id) => row.Some? && row.value.id == id
      case AwaitAdd(id) => row.Some? && row.value.id == id && row.value.verifiedAt.Some?
      case AwaitRemove(id) => row.Some? && row.value.id == id && row.value.appliedCommit.Some?
      case Removed(id) => row.Some? && row.value.id == id && unrouted
    }

    constructor (app: App)
      requires OneLine(app)
      ensures Valid() && row == None && phase == Idle && this.app == app && stray == None && lastVerify == map[]
    {
      this.app := app;
      row, nextId, lastVerify, repo, phase := None, 0, map[], Repo(Text([]), None), Idle;
      seen, unrouted, stray := {}, false, None;
    }

    /** The process stops; what was in progress is gone, but a commit already asked for may land. */
    method Restart(landed: bool)
      requires Valid()
      modifies this`phase, this`lastVerify, this`repo, this`unrouted, this`stray
      ensures Valid() && phase == Idle
      ensures repo == if landed && old(phase).AwaitAdd? then WithIngress(old(repo), app, row.value.domain)
                      else if landed && old(phase).AwaitRemove? then WithoutIngress(old(repo), app)
                      else old(repo)
      ensures unrouted ==> old(unrouted) || (landed && old(phase).AwaitRemove?)
      ensures stray == if landed && old(phase).AwaitAdd? then StrayAfterAdd(row.value) else old(stray)
    {
      hide Routed, WithIngress, WithoutIngress, OneLine, Consistent, SoundRow;
      if landed && phase.AwaitAdd? {
        AddKeeps(app, row.value, repo, unrouted, stray);
        repo, unrouted, stray := WithIngress(repo, app, row.value.domain), false, StrayAfterAdd(row.value);
      } else if landed && phase.AwaitRemove? {
        StrayOfRecorded(app, row, repo, unrouted, stray);
        RemoveKeeps(app, row.value, repo, unrouted);
        repo, unrouted := WithoutIngress(repo, app), true;
      }
      phase, lastVerify := Idle, map[];
    }

    /** A new domain, unless the application has one or some account has this one. */
    method Register(domain: Host, taken: bool) returns (r: Option<RegisterError>)
      requires Valid() && phase == Idle
      modifies this`row, this`nextId
      ensures Valid()
      ensures r.None? <==> old(row).None? && !taken
      ensures r.None? ==>
        row == Some(Row(old(nextId), domain, Pending, None, None, None, None)) && nextId == old(nextId) + 1
      ensures r.Some? ==> row == old(row) && nextId == old(nextId)
    {
      if row.Some? {
        return Some(AlreadyRegistered);
      }
      if taken {
        return Some(Taken);
      }
      row, nextId := Some(Row(nextId, domain, Pending, None, None, None, None)), nextId + 1;
      return None;
    }

    /** Asks the DNS, unless there is nothing to verify or it is too soon. */
    method Verify(now: int) returns (r: Option<VerifyError>)
      requires Valid() && phase == Idle
      modifies this`lastVerify, this`phase
      ensures Valid()
      ensures row.None? ==> r == Some(NotRegistered)
      ensures row.Some? && InPhase(row.value) ==> r.None?
      ensures row.Some? && !InPhase(row.value) ==>
        r == if TooSoon(old(lastVerify), row.value.domain, now) then Some(Cooldown) else None
      ensures if row.Some? && !InPhase(row.value) && !TooSoon(old(lastVerify), row.value.domain, now)
              then phase == AwaitDns(row.value.id) && lastVerify == old(lastVerify)[row.value.domain := now]
              else phase == Idle && lastVerify == old(lastVerify)
    {
      if row.None? {
        return Some(NotRegistered);
      }
      if InPhase(row.value) {
        return None;
      }
      if TooSoon(lastVerify, row.value.domain, now) {
        return Some(Cooldown);
      }
      lastVerify, phase := lastVerify[row.value.domain := now], AwaitDns(row.value.id);
      return None;
    }

    method DnsAnswer(failure: Option<Reason>, message: Reason, now: int)
      requires Valid() && phase.AwaitDns?
      modifies this`row, this`phase
      ensures Valid()
      ensures failure.Some? ==>
        phase == Idle && row == Some(Updated(old(row).value, Error, Some(message), failure, None))
      ensures failure.None? ==> phase == AwaitAdd(old(row).value.id)
      ensures failure.None? ==>
        row == Some(old(row).value.(status := Verified, verifiedAt := Some(now), lastError := None,
                                    errorReason := None))
    {
      var r := row.value;
      if failure.Some? {
        row, phase := Some(Updated(r, Error, Some(message), failure, None)), Idle;
      } else {
        r := r.(lastError := None, errorReason := None);
        row, phase := Some(Updated(r, Verified, None, None, Some(now))), AwaitAdd(r.id);
      }
    }

    /** Commits the ingress. The domain is served as soon as the commit lands; the row becomes applying
      * only when the answer arrives, and is in error otherwise. */
    method AddAnswer(answer: Answer, message: Reason)
      requires Valid() && phase.AwaitAdd?
      modifies this`row, this`repo, this`phase, this`unrouted, this`stray
      ensures Valid() && phase == Idle
      ensures repo == if answer == Refused then old(repo) else WithIngress(old(repo), app, old(row).value.domain)
      ensures answer != Refused ==> Routed(repo, app, old(row).value.domain)
      ensures unrouted ==> old(unrouted)
      ensures row == Some(Answered(old(row).value, answer, message))
      ensures stray == if answer == Refused then old(stray) else StrayAfterAdd(row.value)
      ensures var was, now := old(row).value, row.value;
        if answer.Landed? then now == was.(status := Applying, appliedCommit := Some(answer.sha))
        else now == was.(status := Error, lastError := Some(message))
    {
      var r := row.value;
      hide Routed, WithIngress, OneLine, Consistent, Answered, StrayAfterAdd;
      hide SoundRow, Failed, Recorded, InPhase, Listed;
      AddAnswerKeeps(app, r, repo, unrouted, stray, answer, message);
      AnsweredIs(r, answer, message);
      var answered := Answered(r, answer, message);
      if answer == Refused {
        row, phase := Some(answered), Idle;
      } else {
        row, phase, repo := Some(answered), Idle, WithIngress(repo, app, r.domain);
        unrouted, stray := false, StrayAfterAdd(answered);
      }
    }

    /** A row without a recorded commit goes at once. Its domain is still served exactly if it is stray: if its
      * commit landed without an answer, and the repository has not been rendered since. */
    method Delete()
      requires Valid() && phase == Idle
      modifies this`row, this`phase
      ensures Valid()
      ensures Recorded(old(row)) ==> phase == AwaitRemove(old(row).value.id) && row == old(row)
      ensures !Recorded(old(row)) ==> row == None && phase == Idle
      ensures !Recorded(old(row)) ==> forall h :: Routed(repo, app, h) <==> stray == Some(h)
    {
      if row.Some? && row.value.appliedCommit.Some? {
        phase := AwaitRemove(row.value.id);
      } else {
        row := None;
      }
    }

    /** Commits the removal. The row goes next when the answer arrives; it stays, in error, if the commit is
      * refused, and also if it landed without an answer. */
    method RemoveAnswer(answer: Answer, message: Reason)
      requires Valid() && phase.AwaitRemove?
      modifies this`row, this`repo, this`phase, this`unrouted
      ensures Valid()
      ensures repo == RepoAfterRemoval(old(repo), app, answer)
      ensures answer != Refused ==> !Routed(repo, app, old(row).value.domain)
      ensures phase == if answer.Landed? then Removed(old(row).value.id) else Idle
      ensures var was := old(row).value;
        row == Some(if answer.Landed? then was else was.(status := Error, lastError := Some(message)))
      ensures repo == if answer == Refused then old(repo)
                      else Repo(Text(RemoveText(old(repo).text.content, app.name)), None)
      ensures unrouted && phase == Idle ==> old(unrouted) || answer == LandedSilently
    {
      var r := row.value;
      hide Routed, OneLine, Consistent, RowAfterRemoval, RepoAfterRemoval, Recorded, SoundRow, Failed, InPhase, Listed;
      RemovalKeeps(app, r, repo, unrouted, stray, answer, message);
      var left, after := RowAfterRemoval(r, answer, message), RepoAfterRemoval(repo, app, answer);
      RemovalIs(r, repo, app, answer, message);
      hide RemoveText;
      repo, unrouted := after, unrouted || answer != Refused;
      row, phase := Some(left), if answer.Landed? then Removed(r.id) else Idle;
    }

    method DropRow()
      requires Valid() && phase.Removed?
      modifies this`row, this`phase, this`unrouted
      ensures Valid() && row == None && phase == Idle
      ensures forall h :: !Routed(repo, app, h)
    {
      hide Routed, WithoutIngress, OneLine;
      DropKeeps(app, row.value, repo);
      row, phase, unrouted := None, Idle, false;
    }

    /** A redeploy renders the repository again, with the domain if its ingress was ever committed. */
    method Redeploy(storage: bool, landed: bool)
      requires Valid() && phase == Idle
      modifies this`repo, this`unrouted, this`stray
      ensures Valid()
      ensures !landed ==> repo == old(repo) && stray == old(stray)
      ensures landed ==> stray == None
      ensures landed ==> repo == Rendered(old(repo), app, KeptDomain(row), storage) && Restored(app, row, repo)
      ensures unrouted ==> old(unrouted) && !landed
    {
      hide Rendered, Routed, Listed, WithoutIngress, OneLine, KeptDomain, SoundRow, Consistent, Restored;
      RenderKeeps(app, row, repo, unrouted, stray, storage);
      if landed {
        repo, unrouted, stray := Rendered(repo, app, KeptDomain(row), storage), false, None;
      }
    }

    /** Unregistering drops the row, unless the process stops first. */
    method Unregister(stopped: bool)
      requires Valid() && phase == Idle
      modifies this`row, this`unrouted, this`stray
      ensures Valid()
      ensures row == if stopped then old(row) else None
      ensures stray == if stopped then old(stray) else StrayAfterUnregister(old(row), old(unrouted), old(stray))
    {
      hide Routed, WithoutIngress, OneLine, SoundRow, Consistent;
      if !stopped {
        UnregisterKeeps(app, row, repo, unrouted, stray);
        row, unrouted, stray := None, false, StrayAfterUnregister(row, unrouted, stray);
      }
    }

    /** A status request reads the row, and asks for the certificate. */
    method Read() returns (r: Option<Row>)
      requires Valid()
      modifies this`seen
      ensures Valid() && r == row && seen >= old(seen)
      ensures r.Some? && r.value.status == Applying ==> r.value.id in seen
    {
      r := row;
      if r.Some? && r.value.status == Applying {
        seen := seen + {r.value.id};
      }
    }

    /** Later it marks the row active, whatever has happened to it since. */
    method CertificateAnswer(read: Row, ready: bool)
      requires Valid() && (read.status == Applying ==> read.id in seen)
      modifies this`row
      ensures Valid()
      ensures row == if read.status == Applying && ready && old(row).Some? && old(row).value.id == read.id
        then Some(old(row).value.(status := Active)) else old(row)
    {
      if read.status == Applying && ready && row.Some? && row.value.id == read.id {
        row := Some(Updated(row.value, Active, None, None, None));
      }
    }
  }

  /** A domain is verified, the commit of its ingress lands without an answer, and the user deletes the domain:
    * it is gone from the table and still served. */
  method DeletedButServed(app: App, domain: Host, message: Reason) returns (d: CustomDomain)
    requires OneLine(app)
    ensures fresh(d) && d.Valid() && d.app == app && d.phase == Idle
    ensures d.row == None && Routed(d.repo, app, domain)
  {
    d := new CustomDomain(app);
    var registered := d.Register(domain, false);
    var refused := d.Verify(COOLDOWN);
    d.DnsAnswer(None, message, COOLDOWN);
    d.AddAnswer(LandedSilently, message);
    d.Delete();
  }
}
