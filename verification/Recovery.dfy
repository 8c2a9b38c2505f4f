/** Recovery of admission reservations under the operation lock
  * (apps/backend/src/deploy/deployment-recovery.service.ts and the reservation rows of
  * apps/backend/src/onboarding/users.repository.ts).
  *
  * Registrations, deletions and recoveries advance request by request and interleave with the cluster,
  * which follows the registration files with a delay. The process may restart at any point, losing the
  * lock and whatever was in flight.
  */
module Recovery {
  import opened Common
  import opened AccountLock

  datatype Login = Login(name: string)

  /** What a recovery has read so far; a reservation is read last. */
  datatype Reads = Reads(registration: Option<bool>, application: Option<bool>, namespace: Option<bool>,
                         volumes: Option<bool>, reservation: Option<Option<int>>)

  const UNREAD := Reads(None, None, None, None, None)

  datatype Task =
    | Registering(l: Login, reserved: bool)
    | Unregistering(l: Login, committed: bool)
    | Recovering(l: Login, found: Reads)
    | Other

  datatype Op = Op(keys: set<Key>, task: Task)

  datatype State = State(ops: map<nat, Op>, reservations: map<Login, int>, registered: set<Login>,
                         applications: set<Login>, namespaces: set<Login>, volumes: set<Login>)

  datatype Step =
    | Begin(id: nat, user: nat, task: Task)
    | Reserve(id: nat, at: int)
    | CommitRegistration(id: nat)
    | CommitUnregistration(id: nat)
    | ReleaseOwn(id: nat)
    | ReadRegistration(id: nat)
    | ReadApplication(id: nat)
    | ReadNamespace(id: nat)
    | ReadVolumes(id: nat)
    | ReadReservation(id: nat)
    | Release(id: nat, digestMatches: bool)
    | Finish(id: nat)
    | Restart
    | Generate(l: Login)
    | Sync(l: Login)
    | Prune(l: Login)
    | Clear(l: Login)

  /** All registration-class tasks hold the registration key. */
  function KeysOf(user: nat, task: Task): set<Key> {
    {Account(user)} + if task.Other? then {} else {Registration}
  }

  function Fresh(task: Task): bool {
    match task
    case Registering(_, reserved) => !reserved
    case Unregistering(_, committed) => !committed
    case Recovering(_, found) => found == UNREAD
    case Other => true
  }

  predicate AllRead(r: Reads) {
    r.registration.Some? && r.application.Some? && r.namespace.Some? && r.volumes.Some?
  }

  predicate CanRelease(r: Reads) {
    && AllRead(r) && r.reservation.Some? && r.reservation.value.Some?
    && !r.registration.value && !r.application.value && !r.namespace.value && !r.volumes.value
  }

  predicate Is(s: State, id: nat, p: Task -> bool) { id in s.ops && p(s.ops[id].task) }

  predicate Enabled(s: State, step: Step) {
    match step
    case Begin(id, user, task) =>
      id !in s.ops && Fresh(task) && forall o | o in s.ops :: s.ops[o].keys !! KeysOf(user, task)
    case Reserve(id, _) => Is(s, id, (t: Task) => t.Registering? && !t.reserved && t.l !in s.registered)
    case CommitRegistration(id) => Is(s, id, (t: Task) => t.Registering? && (t.reserved || t.l in s.registered))
    case CommitUnregistration(id) => Is(s, id, (t: Task) => t.Unregistering?)
    case ReleaseOwn(id) => Is(s, id, (t: Task) => t.Unregistering? && t.committed)
    case ReadRegistration(id) => Is(s, id, (t: Task) => t.Recovering?)
    case ReadApplication(id) => Is(s, id, (t: Task) => t.Recovering?)
    case ReadNamespace(id) => Is(s, id, (t: Task) => t.Recovering?)
    case ReadVolumes(id) => Is(s, id, (t: Task) => t.Recovering?)
    case ReadReservation(id) => Is(s, id, (t: Task) => t.Recovering? && AllRead(t.found))
    case Release(id, _) => Is(s, id, (t: Task) => t.Recovering? && t.found.reservation.Some?)
    case Finish(id) => id in s.ops
    case Restart => true
    case Generate(l) => l in s.registered
    case Sync(l) => l in s.applications
    case Prune(l) => l !in s.registered
    case Clear(l) => l !in s.applications
  }

  function WithTask(s: State, id: nat, task: Task): State
    requires id in s.ops
  {
    s.(ops := s.ops[id := s.ops[id].(task := task)])
  }

  /** Whether a release step deletes the reservation row: nothing may remain, the reviewed digest must
    * match, and the row must still carry the time that was read. */
  predicate Deletes(s: State, step: Step)
    requires Enabled(s, step)
  {
    step.Release? &&
    var t := s.ops[step.id].task;
    step.digestMatches && CanRelease(t.found) && t.l in s.reservations
    && s.reservations[t.l] == t.found.reservation.value.value
  }

  function ReservationOf(s: State, l: Login): Option<int> {
    if l in s.reservations then Some(s.reservations[l]) else None
  }

  function Next(s: State, step: Step): State
    requires Enabled(s, step)
  {
    match step
    case Begin(id, user, task) => s.(ops := s.ops[id := Op(KeysOf(user, task), task)])
    case Reserve(id, at) =>
      var t := s.ops[id].task;
      WithTask(s.(reservations := if t.l in s.reservations then s.reservations else s.reservations[t.l := at]),
               id, t.(reserved := true))
    case CommitRegistration(id) => s.(registered := s.registered + {s.ops[id].task.l})
    case CommitUnregistration(id) =>
      var t := s.ops[id].task;
      WithTask(s.(registered := s.registered - {t.l}), id, t.(committed := true))
    case ReleaseOwn(id) => s.(reservations := s.reservations - {s.ops[id].task.l})
    case ReadRegistration(id) => Read(s, id, (r: Reads, l) => r.(registration := Some(l in s.registered)))
    case ReadApplication(id) => Read(s, id, (r: Reads, l) => r.(application := Some(l in s.applications)))
    case ReadNamespace(id) => Read(s, id, (r: Reads, l) => r.(namespace := Some(l in s.namespaces)))
    case ReadVolumes(id) => Read(s, id, (r: Reads, l) => r.(volumes := Some(l in s.volumes)))
    case ReadReservation(id) => Read(s, id, (r: Reads, l) => r.(reservation := Some(ReservationOf(s, l))))
    case Release(id, digestMatches) =>
      if Deletes(s, step) then s.(reservations := s.reservations - {s.ops[id].task.l}) else s
    case Finish(id) => s.(ops := s.ops - {id})
    case Restart => s.(ops := map[])
    case Generate(l) => s.(applications := s.applications + {l})
    case Sync(l) => s.(namespaces := s.namespaces + {l}, volumes := s.volumes + {l})
    case Prune(l) => s.(applications := s.applications - {l})
    case Clear(l) => s.(namespaces := s.namespaces - {l}, volumes := s.volumes - {l})
  }

  function Read(s: State, id: nat, f: (Reads, Login) -> Reads): State
    requires id in s.ops && s.ops[id].task.Recovering?
  {
    var t := s.ops[id].task;
    WithTask(s, id, t.(found := f(t.found, t.l)))
  }

  // ----- The routes of these tasks -----

  datatype Route =
    | RegisterApp
    | DeleteApp
    | DeleteAccount
    | ReleaseReservation(name: string)
    | ProposeSetup
    | PreparePatch
    | ProposePatch

  predicate Routed(route: Route) { route.ReleaseReservation? ==> route.name != "" && '/' !in route.name }

  function PathOf(route: Route): string {
    match route
    case RegisterApp => "/deploy/register"
    case DeleteApp => "/deploy"
    case DeleteAccount => "/account"
    case ReleaseReservation(name) => RECOVERY_PREFIX + name + RECOVERY_SUFFIX
    case ProposeSetup => "/deploy/setup/pr"
    case PreparePatch => "/deploy/security-patch/prepare"
    case ProposePatch => "/deploy/security-patch/pr"
  }

  function RequestOf(user: nat, route: Route): Request {
    Request(user, if route.DeleteApp? || route.DeleteAccount? then Verb.Delete else Post, "/api" + PathOf(route))
  }

  function TaskOf(route: Route, l: Login): Task {
    match route
    case RegisterApp => Registering(l, false)
    case DeleteApp => Unregistering(l, false)
    case DeleteAccount => Unregistering(l, false)
    case ReleaseReservation(name) => Recovering(Login(Lower(name)), UNREAD)
    case _ => Other
  }

  lemma FixedPath(route: Route)
    requires !route.ReleaseReservation?
    ensures Normalized("/api" + PathOf(route)) == PathOf(route)
  {
    hide Normalized, Lower;
    LowerSame(PathOf(route));
    ApiPath(PathOf(route));
  }

  /** The request of each route holds exactly the keys of its task while it runs. */
  lemma RouteKeys(user: nat, route: Route, l: Login)
    requires Routed(route)
    ensures Keys(RequestOf(user, route)) == KeysOf(user, TaskOf(route, l)) && Fresh(TaskOf(route, l))
  {
    if route.ReleaseReservation? {
      ReleasePath(route.name);
    } else {
      FixedPath(route);
    }
    hide Normalized;
  }

  // ----- Invariants -----

  ghost predicate LockInv(s: State) {
    && (forall a, b | a in s.ops && b in s.ops && a != b :: s.ops[a].keys !! s.ops[b].keys)
    && (forall a | a in s.ops && !s.ops[a].task.Other? :: Registration in s.ops[a].keys)
  }

  /** What a running recovery has found absent stays absent. */
  ghost predicate ReadsHold(s: State) {
    forall a | a in s.ops && s.ops[a].task.Recovering? ::
      var t := s.ops[a].task;
      && (t.found.registration.Some? ==> (t.found.registration.value <==> t.l in s.registered))
      && (t.l !in s.registered && t.found.application == Some(false) ==> t.l !in s.applications)
  }

  /** At most one registration-class operation runs. */
  lemma OneRegistrationTask(s: State, a: nat, b: nat)
    requires LockInv(s) && a in s.ops && b in s.ops && !s.ops[a].task.Other? && !s.ops[b].task.Other?
    ensures a == b
  {
  }

  lemma LockKept(s: State, step: Step)
    requires LockInv(s) && Enabled(s, step)
    ensures LockInv(Next(s, step))
  {
  }

  lemma ReadsKept(s: State, step: Step)
    requires LockInv(s) && ReadsHold(s) && Enabled(s, step)
    ensures ReadsHold(Next(s, step))
  {
    var s' := Next(s, step);
    forall a | a in s'.ops && s'.ops[a].task.Recovering?
      ensures var t := s'.ops[a].task;
        && (t.found.registration.Some? ==> (t.found.registration.value <==> t.l in s'.registered))
        && (t.l !in s'.registered && t.found.application == Some(false) ==> t.l !in s'.applications)
    {
      if a in s.ops && (step.CommitRegistration? || step.CommitUnregistration?) && s.ops[a].task.Recovering? {
        OneRegistrationTask(s, a, step.id);
      }
    }
  }

  predicate Initially(s: State) { s.ops == map[] }

  ghost predicate Runs(s: State, steps: seq<Step>, end: State)
    decreases |steps|
  {
    if steps == [] then s == end
    else Enabled(s, steps[0]) && Runs(Next(s, steps[0]), steps[1..], end)
  }

  // ----- What a run has read and synced -----

  /** The two kinds of resources a recovery looks for. */
  datatype Kind = Namespace | Volumes

  function ReadStep(kind: Kind, id: nat): Step { if kind.Namespace? then ReadNamespace(id) else ReadVolumes(id) }

  function Remaining(s: State, kind: Kind): set<Login> { if kind.Namespace? then s.namespaces else s.volumes }

  function Found(r: Reads, kind: Kind): Option<bool> { if kind.Namespace? then r.namespace else r.volumes }

  /** The i-th step syncs an account, which is not cleared later. */
  ghost predicate Lasting(steps: seq<Step>, i: nat, l: Login) {
    i < |steps| && steps[i] == Sync(l) && forall j | i < j < |steps| :: steps[j] != Clear(l)
  }

  predicate Before(steps: seq<Step>, i: nat, step: Step) { step in steps[..Min(i, |steps|)] }

  predicate Later(steps: seq<Step>, i: nat, step: Step) { step in steps[Min(i, |steps|)..] }

  function Min(a: nat, b: nat): nat { if a <= b then a else b }

  /** The account was synced after a read, and not cleared later. */
  ghost predicate SyncedSince(steps: seq<Step>, read: Step, l: Login) {
    exists i: nat :: Lasting(steps, i, l) && Before(steps, i, read)
  }

  /** The same, with another read still to come. */
  ghost predicate SyncedBetween(steps: seq<Step>, read: Step, l: Login, last: Step) {
    exists i: nat :: Lasting(steps, i, l) && Before(steps, i, read) && Later(steps, i, last)
  }

  ghost predicate SyncedRemain(s: State, done: seq<Step>) {
    forall i: nat, l, kind | Lasting(done, i, l) :: l in Remaining(s, kind)
  }

  /** What a recovery has not found and is there now has been synced since. */
  ghost predicate ReadOrSynced(s: State, done: seq<Step>) {
    forall id, kind | id in s.ops && s.ops[id].task.Recovering? ::
      var t := s.ops[id].task;
      && (Found(t.found, kind).Some? ==> ReadStep(kind, id) in done)
      && (Found(t.found, kind) == Some(false) && t.l in Remaining(s, kind)
          ==> SyncedSince(done, ReadStep(kind, id), t.l))
  }

  /** Every sync of an account found without registration and application came before that was read. */
  ghost predicate NotSyncedAgain(s: State, done: seq<Step>) {
    forall id, i: nat | id in s.ops && s.ops[id].task.Recovering? && i < |done| && done[i] == Sync(s.ops[id].task.l) ::
      var t := s.ops[id].task;
      t.found.application == Some(false) && t.l !in s.registered ==> Later(done, i, ReadApplication(id))
  }

  ghost predicate History(s: State, done: seq<Step>) {
    LockInv(s) && ReadsHold(s) && SyncedRemain(s, done) && ReadOrSynced(s, done) && NotSyncedAgain(s, done)
  }

  lemma LastingBefore(done: seq<Step>, step: Step, i: nat, l: Login)
    requires i < |done|
    ensures Lasting(done + [step], i, l) <==> Lasting(done, i, l) && step != Clear(l)
  {
    var more := done + [step];
    if Lasting(done, i, l) && step != Clear(l) {
      forall j | i < j < |more| ensures more[j] != Clear(l) { }
    }
    if Lasting(more, i, l) {
      assert more[|done|] == step;
      forall j | i < j < |done| ensures done[j] != Clear(l) { assert done[j] == more[j]; }
    }
  }

  lemma BeforeKept(done: seq<Step>, step: Step, i: nat, read: Step)
    ensures Before(done, i, read) ==> Before(done + [step], i, read)
    ensures Later(done, i, read) ==> Later(done + [step], i, read)
    ensures i <= |done| ==> Later(done + [step], i, step)
    ensures read in done ==> Before(done + [step], |done|, read)
  {
    var n := Min(i, |done|);
    assert done == done[..n] + done[n..];
    assert (done + [step])[..n] == done[..n];
    assert (done + [step])[n..] == done[n..] + [step];
    assert (done + [step])[..|done|] == done;
  }

  lemma SyncedSinceKept(done: seq<Step>, step: Step, read: Step, l: Login)
    requires SyncedSince(done, read, l) && step != Clear(l)
    ensures SyncedSince(done + [step], read, l)
  {
    var i: nat :| Lasting(done, i, l) && Before(done, i, read);
    LastingBefore(done, step, i, l);
    BeforeKept(done, step, i, read);
  }

  lemma SyncedNow(done: seq<Step>, read: Step, l: Login)
    requires read in done
    ensures SyncedSince(done + [Sync(l)], read, l)
  {
    BeforeKept(done, Sync(l), 0, read);
    assert Lasting(done + [Sync(l)], |done|, l);
  }

  lemma SyncedRemainKept(s: State, done: seq<Step>, step: Step)
    requires SyncedRemain(s, done) && Enabled(s, step)
    ensures SyncedRemain(Next(s, step), done + [step])
  {
    forall i: nat, l, kind | Lasting(done + [step], i, l) ensures l in Remaining(Next(s, step), kind) {
      if i < |done| {
        LastingBefore(done, step, i, l);
        assert l in Remaining(s, kind);
      } else {
        assert (done + [step])[|done|] == Sync(l);
      }
    }
  }

  lemma ReadOrSyncedKept(s: State, done: seq<Step>, step: Step)
    requires LockInv(s) && ReadOrSynced(s, done) && Enabled(s, step)
    ensures ReadOrSynced(Next(s, step), done + [step])
  {
    var s' := Next(s, step);
    forall id, kind | id in s'.ops && s'.ops[id].task.Recovering?
      ensures var t := s'.ops[id].task;
        && (Found(t.found, kind).Some? ==> ReadStep(kind, id) in done + [step])
        && (Found(t.found, kind) == Some(false) && t.l in Remaining(s', kind)
            ==> SyncedSince(done + [step], ReadStep(kind, id), t.l))
    {
      var t, read := s'.ops[id].task, ReadStep(kind, id);
      if Found(t.found, kind) == Some(false) && t.l in Remaining(s', kind) {
        if step == Sync(t.l) {
          SyncedNow(done, read, t.l);
        } else {
          SyncedSinceKept(done, step, read, t.l);
        }
      }
    }
  }

  /** While a recovery runs no registration file comes or goes. */
  lemma RegistrationsHeld(s: State, step: Step, id: nat)
    requires LockInv(s) && Enabled(s, step) && id in s.ops
    ensures s.ops[id].task.Recovering? ==> Next(s, step).registered == s.registered
  {
    assert s.ops[id].task.Recovering? ==> Registration in s.ops[id].keys;
  }

  lemma NotSyncedAgainKept(s: State, done: seq<Step>, step: Step)
    requires LockInv(s) && ReadsHold(s) && NotSyncedAgain(s, done) && Enabled(s, step)
    ensures NotSyncedAgain(Next(s, step), done + [step])
  {
    var s', more := Next(s, step), done + [step];
    forall id, i: nat | id in s'.ops && s'.ops[id].task.Recovering? && i < |more| && more[i] == Sync(s'.ops[id].task.l)
      ensures var t := s'.ops[id].task;
        t.found.application == Some(false) && t.l !in s'.registered ==> Later(more, i, ReadApplication(id))
    {
      BeforeKept(done, step, i, ReadApplication(id));
      if id in s.ops { RegistrationsHeld(s, step, id); }
    }
  }

  lemma {:induction false} RunKeeps(s: State, done: seq<Step>, steps: seq<Step>, end: State)
    requires History(s, done) && Runs(s, steps, end)
    ensures History(end, done + steps)
    decreases |steps|
  {
    hide LockInv, ReadsHold, SyncedRemain, ReadOrSynced, NotSyncedAgain, Next, Enabled;
    if steps == [] {
      assert done + steps == done;
    } else {
      LockKept(s, steps[0]);
      ReadsKept(s, steps[0]);
      SyncedRemainKept(s, done, steps[0]);
      ReadOrSyncedKept(s, done, steps[0]);
      NotSyncedAgainKept(s, done, steps[0]);
      assert done + [steps[0]] + steps[1..] == done + steps;
      RunKeeps(Next(s, steps[0]), done + [steps[0]], steps[1..], end);
    }
  }

  // ----- Deleting a reservation -----

  /** Whenever a recovery deletes a reservation, no registration or deletion is in flight for anybody, and the
    * account has no registration file and no application. A namespace or volume of it is left exactly when it
    * was synced after that was read and not cleared later; and such a sync came before the application was read. */
  lemma RecoveryIsSafe(s: State, steps: seq<Step>, end: State, step: Step, kind: Kind)
    requires Initially(s) && Runs(s, steps, end) && Enabled(end, step) && Deletes(end, step)
    ensures var l := end.ops[step.id].task.l;
      && l !in end.registered && l !in end.applications
      && (l in Remaining(end, kind) <==> SyncedSince(steps, ReadStep(kind, step.id), l))
      && (l in Remaining(end, kind) <==> SyncedBetween(steps, ReadStep(kind, step.id), l, ReadApplication(step.id)))
    ensures forall other | other in end.ops && other != step.id :: end.ops[other].task.Other?
  {
    assert [] + steps == steps;
    RunKeeps(s, [], steps, end);
    forall other | other in end.ops && other != step.id ensures end.ops[other].task.Other? {
      if !end.ops[other].task.Other? {
        OneRegistrationTask(end, other, step.id);
      }
    }
    var l, read := end.ops[step.id].task.l, ReadStep(kind, step.id);
    if l in Remaining(end, kind) {
      var i: nat :| Lasting(steps, i, l) && Before(steps, i, read);
      assert Later(steps, i, ReadApplication(step.id));
    }
  }

  /** A recovery that has found nothing of the account but its reservation, made at this time. */
  predicate FoundOnly(task: Task, l: Login, at: int) {
    task == Recovering(l, Reads(Some(false), Some(false), Some(false), Some(false), Some(Some(at))))
  }

  /** In every run an account loses its reservation only when it is deleted, after the registration file has gone,
    * or recovered: by a reviewed recovery of this account, while the row carries the time that was read and the
    * account has no registration and no application. Each of these does take the row away, and no step touches
    * the row of any other account. */
  lemma ReservationsFollow(s: State, steps: seq<Step>, end: State, step: Step, l: Login)
    requires Initially(s) && Runs(s, steps, end) && Enabled(end, step)
    ensures var was, now := end.reservations, Next(end, step).reservations;
      && (l in was && l in now ==> now[l] == was[l])
      && (l in was ==>
          (l !in now <==>
           || (step.ReleaseOwn? && end.ops[step.id].task == Unregistering(l, true))
           || (step.Release? && step.digestMatches && FoundOnly(end.ops[step.id].task, l, was[l]))))
      && (l in was && l !in now && step.Release? ==> l !in end.registered && l !in end.applications)
  {
    assert [] + steps == steps;
    RunKeeps(s, [], steps, end);
    hide SyncedRemain, ReadOrSynced, NotSyncedAgain, LockInv;
  }

  /** A registration that has made its reservation still has it, and a deletion that has committed has left no
    * registration. */
  ghost predicate TasksHold(s: State) {
    forall id | id in s.ops ::
      && (s.ops[id].task.Registering? && s.ops[id].task.reserved ==> s.ops[id].task.l in s.reservations)
      && (s.ops[id].task.Unregistering? && s.ops[id].task.committed ==> s.ops[id].task.l !in s.registered)
  }

  lemma TasksKept(s: State, step: Step)
    requires LockInv(s) && TasksHold(s) && Enabled(s, step)
    ensures TasksHold(Next(s, step))
  {
    var s' := Next(s, step);
    forall id | id in s'.ops
      ensures s'.ops[id].task.Registering? && s'.ops[id].task.reserved ==> s'.ops[id].task.l in s'.reservations
      ensures s'.ops[id].task.Unregistering? && s'.ops[id].task.committed ==> s'.ops[id].task.l !in s'.registered
    {
      if id in s.ops && (step.ReleaseOwn? || step.Release? || step.CommitRegistration?) && !s.ops[id].task.Other? {
        OneRegistrationTask(s, id, step.id);
      }
    }
  }

  lemma {:induction false} TasksRun(s: State, steps: seq<Step>, end: State)
    requires LockInv(s) && TasksHold(s) && Runs(s, steps, end)
    ensures TasksHold(end)
    decreases |steps|
  {
    hide LockInv, TasksHold, Next, Enabled;
    if steps != [] {
      LockKept(s, steps[0]);
      TasksKept(s, steps[0]);
      TasksRun(Next(s, steps[0]), steps[1..], end);
    }
  }

  /** In every run an account is first registered only while it has a reservation, and a deletion gives the
    * reservation back only when the registration file is gone. */
  lemma RegisteredReserved(s: State, steps: seq<Step>, end: State, step: Step)
    requires Initially(s) && Runs(s, steps, end) && Enabled(end, step)
    ensures step.CommitRegistration? ==>
      end.ops[step.id].task.l in end.registered || end.ops[step.id].task.l in end.reservations
    ensures step.ReleaseOwn? ==> end.ops[step.id].task.l !in end.registered
  {
    TasksRun(s, steps, end);
  }

  /** An account gets a reservation only when its own first registration asks for it, with the time of asking. */
  lemma ReservedFollow(s: State, step: Step, l: Login)
    requires Enabled(s, step) && l !in s.reservations
    ensures l in Next(s, step).reservations <==>
      step.Reserve? && s.ops[step.id].task == Registering(l, false) && l !in s.registered
    ensures l in Next(s, step).reservations ==> Next(s, step).reservations[l] == step.at
  {
  }

  /** Registration files come and go with the commits of the account's own operation. */
  lemma RegisteredFollow(s: State, step: Step, l: Login)
    requires Enabled(s, step)
    ensures l !in s.registered ==>
      (l in Next(s, step).registered <==> step.CommitRegistration? && s.ops[step.id].task.l == l)
    ensures l in s.registered ==>
      (l !in Next(s, step).registered <==> step.CommitUnregistration? && s.ops[step.id].task.l == l)
  {
  }

  /** Only a restart ends the operations of others, and no step changes them. */
  lemma OthersGoOn(s: State, step: Step, other: nat)
    requires Enabled(s, step) && other in s.ops && !step.Restart?
    requires step.Sync? || step.Generate? || step.Prune? || step.Clear? || step.id != other
    ensures other in Next(s, step).ops && Next(s, step).ops[other] == s.ops[other]
  {
  }

  /** Reading the application before the resources would leave nothing behind. */
  lemma ApplicationFirstIsSafe(s: State, steps: seq<Step>, end: State, step: Step, kind: Kind)
    requires Initially(s) && Runs(s, steps, end) && Enabled(end, step) && Deletes(end, step)
    requires forall i: nat | i < |steps| && Before(steps, i, ReadStep(kind, step.id)) ::
      !Later(steps, i, ReadApplication(step.id))
    ensures end.ops[step.id].task.l !in Remaining(end, kind)
  {
    RecoveryIsSafe(s, steps, end, step, kind);
  }

  /** A run that ends with a namespace whose reservation the next step deletes. */
  ghost predicate LeavesNamespace(s: State, steps: seq<Step>, end: State, step: Step) {
    && Initially(s) && Runs(s, steps, end) && Enabled(end, step) && Deletes(end, step)
    && end.ops[step.id].task.l in end.namespaces
  }

  lemma RunsOneMore(s: State, step: Step, steps: seq<Step>, end: State)
    requires Enabled(s, step) && Runs(Next(s, step), steps, end)
    ensures Runs(s, [step] + steps, end)
  {
    assert ([step] + steps)[1..] == steps;
  }

  function Racing(l: Login, found: Reads, applications: set<Login>, namespaces: set<Login>): State {
    State(map[0 := Op({Account(0), Registration}, Recovering(l, found))], map[l := 1], {}, applications, namespaces,
          namespaces)
  }

  lemma RacingStep(l: Login, step: Step, found: Reads, applications: set<Login>, namespaces: set<Login>,
                   found': Reads, applications': set<Login>, namespaces': set<Login>, steps: seq<Step>, end: State)
    requires step in {ReadRegistration(0), ReadNamespace(0), ReadVolumes(0), ReadApplication(0), ReadReservation(0),
                      Sync(l), Prune(l)}
    requires step.Sync? ==> l in applications
    requires step.ReadReservation? ==> AllRead(found)
    requires found' == match step
      case ReadRegistration(_) => found.(registration := Some(false))
      case ReadNamespace(_) => found.(namespace := Some(l in namespaces))
      case ReadVolumes(_) => found.(volumes := Some(l in namespaces))
      case ReadApplication(_) => found.(application := Some(l in applications))
      case ReadReservation(_) => found.(reservation := Some(Some(1)))
      case _ => found
    requires applications' == if step.Prune? then applications - {l} else applications
    requires namespaces' == if step.Sync? then namespaces + {l} else namespaces
    requires Runs(Racing(l, found', applications', namespaces'), steps, end)
    ensures Runs(Racing(l, found, applications, namespaces), [step] + steps, end)
  {
    var s, s' := Racing(l, found, applications, namespaces), Racing(l, found', applications', namespaces');
    assert s.ops[0 := s'.ops[0]] == s'.ops;
    assert Next(s, step) == s';
    hide Racing, Next, Runs;
    RunsOneMore(s, step, steps, end);
  }

  lemma RacingBegins(l: Login)
    ensures var s := State(map[], map[l := 1], {}, {l}, {}, {});
      var begin := Begin(0, 0, Recovering(l, UNREAD));
      Initially(s) && Enabled(s, begin) && Next(s, begin) == Racing(l, UNREAD, {l}, {})
  {
    assert KeysOf(0, Recovering(l, UNREAD)) == {Account(0), Registration};
    assert Next(State(map[], map[l := 1], {}, {l}, {}, {}), Begin(0, 0, Recovering(l, UNREAD))).ops
        == Racing(l, UNREAD, {l}, {}).ops;
  }

  lemma RacingEnds(l: Login, found: Reads)
    requires found == Reads(Some(false), Some(false), Some(false), Some(false), Some(Some(1)))
    ensures var end := Racing(l, found, {}, {l});
      && Enabled(end, Release(0, true)) && Deletes(end, Release(0, true))
      && 0 in end.ops && end.ops[0].task.Recovering? && end.ops[0].task.l in end.namespaces
  {
  }

  function AfterVolumes(): Reads {
    UNREAD.(registration := Some(false), namespace := Some(false), volumes := Some(false))
  }

  function AllFree(): Reads { AfterVolumes().(application := Some(false), reservation := Some(Some(1))) }

  function LateSteps(l: Login): seq<Step> {
    [Sync(l)] + ([Prune(l)] + ([ReadApplication(0)] + ([ReadReservation(0)] + [])))
  }

  function EarlySteps(l: Login): seq<Step> {
    [ReadRegistration(0)] + ([ReadNamespace(0)] + ([ReadVolumes(0)] + LateSteps(l)))
  }

  lemma LateSyncs(l: Login)
    ensures Runs(Racing(l, AfterVolumes(), {l}, {}), LateSteps(l), Racing(l, AllFree(), {}, {l}))
  {
    var end, r := Racing(l, AllFree(), {}, {l}), AfterVolumes();
    var r' := r.(application := Some(false));
    assert Runs(end, [], end);
    assert AllRead(r') && r'.(reservation := Some(Some(1))) == AllFree();
    hide Runs, Racing, AfterVolumes, AllFree;
    RacingStep(l, ReadReservation(0), r', {}, {l}, AllFree(), {}, {l}, [], end);
    RacingStep(l, ReadApplication(0), r, {}, {l}, r', {}, {l}, [ReadReservation(0)] + [], end);
    RacingStep(l, Prune(l), r, {l}, {l}, r, {}, {l}, [ReadApplication(0)] + ([ReadReservation(0)] + []), end);
    RacingStep(l, Sync(l), r, {l}, {}, r, {l}, {l},
               [Prune(l)] + ([ReadApplication(0)] + ([ReadReservation(0)] + [])), end);
  }

  lemma EarlyReads(l: Login)
    ensures Runs(Racing(l, UNREAD, {l}, {}), EarlySteps(l), Racing(l, AllFree(), {}, {l}))
  {
    var end, r1 := Racing(l, AllFree(), {}, {l}), UNREAD.(registration := Some(false));
    var r2 := r1.(namespace := Some(false));
    assert r2.(volumes := Some(false)) == AfterVolumes();
    LateSyncs(l);
    hide Runs, Racing, AfterVolumes, AllFree, LateSteps;
    RacingStep(l, ReadVolumes(0), r2, {l}, {}, AfterVolumes(), {l}, {}, LateSteps(l), end);
    RacingStep(l, ReadNamespace(0), r1, {l}, {}, r2, {l}, {}, [ReadVolumes(0)] + LateSteps(l), end);
    RacingStep(l, ReadRegistration(0), UNREAD, {l}, {}, r1, {l}, {},
               [ReadNamespace(0)] + ([ReadVolumes(0)] + LateSteps(l)), end);
  }

  /** The reads are not one snapshot: a lingering application synced after the namespace was read and
    * pruned before the application is read leaves a namespace behind a deleted reservation. */
  lemma LateSyncExample(l: Login)
    ensures exists s, steps, end :: LeavesNamespace(s, steps, end, Release(0, true))
  {
    var s := State(map[], map[l := 1], {}, {l}, {}, {});
    var end := Racing(l, AllFree(), {}, {l});
    var begin := Begin(0, 0, Recovering(l, UNREAD));
    RacingBegins(l);
    RacingEnds(l, AllFree());
    EarlyReads(l);
    hide *;
    RunsOneMore(s, begin, EarlySteps(l), end);
    Leaves(s, [begin] + EarlySteps(l), end, Release(0, true));
  }

  lemma Leaves(s: State, steps: seq<Step>, end: State, step: Step)
    requires Initially(s) && Runs(s, steps, end) && Enabled(end, step) && Deletes(end, step)
    requires step.Release? && step.id in end.ops && end.ops[step.id].task.Recovering?
    requires end.ops[step.id].task.l in end.namespaces
    ensures LeavesNamespace(s, steps, end, step)
  {
  }

  // ----- The life of an account -----

  /** One account: what is in progress for it, and what there is of it. */
  datatype Life = Life(task: Option<Task>, reserved: bool, registered: bool, application: bool, resources: bool)

  function Only(l: Login, there: bool): set<Login> { if there then {l} else {} }

  function Alone(l: Login, life: Life): State {
    State(if life.task.Some? then map[0 := Op({Account(0), Registration}, life.task.value)] else map[],
          if life.reserved then map[l := 7] else map[], Only(l, life.registered), Only(l, life.application),
          Only(l, life.resources), Only(l, life.resources))
  }

  predicate Leads(l: Login, from: Life, step: Step, to: Life) {
    Enabled(Alone(l, from), step) && Next(Alone(l, from), step) == Alone(l, to)
  }

  /** Registration: reserved first, committed then; the application is generated and synced. */
  lemma Registers(l: Login)
    ensures var start := Life(None, false, false, false, false);
      var first, second := Registering(l, false), Registering(l, true);
      && Leads(l, start, Begin(0, 0, first), start.(task := Some(first)))
      && Leads(l, start.(task := Some(first)), Reserve(0, 7), Life(Some(second), true, false, false, false))
      && Leads(l, Life(Some(second), true, false, false, false), CommitRegistration(0),
               Life(Some(second), true, true, false, false))
      && Leads(l, Life(Some(second), true, true, false, false), Finish(0), Life(None, true, true, false, false))
      && Leads(l, Life(None, true, true, false, false), Generate(l), Life(None, true, true, true, false))
      && Leads(l, Life(None, true, true, true, false), Sync(l), Life(None, true, true, true, true))
  {
    var start, first, second := Life(None, false, false, false, false), Registering(l, false), Registering(l, true);
    BeginAlone(l, start, first);
    WithTaskAlone(l, start.(task := Some(first)), second);
    FinishAlone(l, Life(Some(second), true, true, false, false));
  }

  /** A redeploy commits again without a new reservation. */
  lemma RegistersAgain(l: Login)
    ensures var life, again := Life(None, false, true, true, true), Registering(l, false);
      && Leads(l, life, Begin(0, 0, again), life.(task := Some(again)))
      && Leads(l, life.(task := Some(again)), CommitRegistration(0), life.(task := Some(again)))
      && Leads(l, life.(task := Some(again)), Finish(0), life)
  {
    var life, again := Life(None, false, true, true, true), Registering(l, false);
    BeginAlone(l, life, again);
    FinishAlone(l, life.(task := Some(again)));
  }

  /** Deletion: the file goes, then the reservation; the application is pruned, and what it made cleared. */
  lemma Unregisters(l: Login)
    ensures var life := Life(None, true, true, true, true);
      var first, second := Unregistering(l, false), Unregistering(l, true);
      && Leads(l, life, Begin(0, 0, first), life.(task := Some(first)))
      && Leads(l, life.(task := Some(first)), CommitUnregistration(0), Life(Some(second), true, false, true, true))
      && Leads(l, Life(Some(second), true, false, true, true), ReleaseOwn(0),
               Life(Some(second), false, false, true, true))
      && Leads(l, Life(Some(second), false, false, true, true), Finish(0), Life(None, false, false, true, true))
      && Leads(l, Life(None, false, false, true, true), Prune(l), Life(None, false, false, false, true))
      && Leads(l, Life(None, false, false, false, true), Clear(l), Life(None, false, false, false, false))
  {
    UnregistersFile(l);
    UnregistersRest(l);
    hide *;
  }

  lemma UnregistersFile(l: Login)
    ensures var life := Life(None, true, true, true, true);
      var first, second := Unregistering(l, false), Unregistering(l, true);
      && Leads(l, life, Begin(0, 0, first), life.(task := Some(first)))
      && Leads(l, life.(task := Some(first)), CommitUnregistration(0), Life(Some(second), true, false, true, true))
  {
    var life, first, second := Life(None, true, true, true, true), Unregistering(l, false), Unregistering(l, true);
    BeginAlone(l, life, first);
    WithTaskAlone(l, life.(task := Some(first)), second);
  }

  lemma UnregistersRest(l: Login)
    ensures var second := Unregistering(l, true);
      && Leads(l, Life(Some(second), true, false, true, true), ReleaseOwn(0),
               Life(Some(second), false, false, true, true))
      && Leads(l, Life(Some(second), false, false, true, true), Finish(0), Life(None, false, false, true, true))
      && Leads(l, Life(None, false, false, true, true), Prune(l), Life(None, false, false, false, true))
      && Leads(l, Life(None, false, false, false, true), Clear(l), Life(None, false, false, false, false))
  {
    FinishAlone(l, Life(Some(Unregistering(l, true)), false, false, true, true));
  }

  /** A restart ends whatever is in progress, and leaves the rest; other operations come and go without a trace. */
  lemma Restarts(l: Login, life: Life)
    ensures Leads(l, life, Restart, life.(task := None))
    ensures Leads(l, life.(task := Some(Recovering(l, UNREAD))), Finish(0), life.(task := None))
    ensures Leads(l, life.(task := None), Begin(0, 0, Recovering(l, UNREAD)),
                  life.(task := Some(Recovering(l, UNREAD))))
    ensures Enabled(Alone(l, life.(task := None)), Begin(1, 1, Other))
  {
    BeginAlone(l, life.(task := None), Recovering(l, UNREAD));
    FinishAlone(l, life.(task := Some(Recovering(l, UNREAD))));
  }

  lemma BeginAlone(l: Login, life: Life, task: Task)
    requires life.task.None? && !task.Other?
    ensures Alone(l, life).ops[0 := Op(KeysOf(0, task), task)] == Alone(l, life.(task := Some(task))).ops
  {
    assert KeysOf(0, task) == {Account(0), Registration};
  }

  lemma WithTaskAlone(l: Login, life: Life, task: Task)
    requires life.task.Some?
    ensures Alone(l, life).ops[0 := Alone(l, life).ops[0].(task := task)] == Alone(l, life.(task := Some(task))).ops
  {
  }

  lemma FinishAlone(l: Login, life: Life)
    requires life.task.Some?
    ensures Alone(l, life).ops - {0} == map[]
  {
  }
}
