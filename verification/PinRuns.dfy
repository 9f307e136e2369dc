/**
 * The security columns of a wallet under calls that overlap: PIN checks, new bank accounts and new PINs. Each works
 * on the row it loaded. A check compares the PIN, and only then counts a failure under the row's lock, or writes its
 * copy of the columns back after a success; adding a bank account writes its copy back with a new cooldown.
 */
module PinRuns {
  import opened Wrappers
  import opened Sets
  import opened Pin

  /** The columns UpdateWalletSecurity writes, all of them each time. */
  datatype Security = Security(pin: Option<nat>, lock: Lock, cooldown: Option<int>)

  /** A check that has loaded the row; failed and not counted yet; or succeeded and not written back yet. */
  datatype Phase = Loaded(read: Security) | Failed | Passed(read: Security)

  datatype Config = Config(max: int, lockFor: int, cooldown: int)

  /** comparisons records when a wrong PIN was compared; no step reads it. */
  datatype State = State(row: Security, calls: map<nat, Phase>, adding: map<nat, Security>, clock: int,
                         comparisons: seq<int>)

  const START := State(Security(None, Lock(0, None), None), map[], map[], 0, [])

  datatype Event =
    // checkPIN
    | Load(call: nat)
    | Compare(call: nat, pin: nat)
    | Record(call: nat)
    | WriteBack(call: nat)
    // AddPayoutAccount
    | LoadForAccount(call: nat)
    | SaveCooldown(call: nat)
    // SetPIN
    | SetPin(pin: nat)
    // a call that ends early, or whose write fails
    | Crash(call: nat)
    | Tick(elapsed: nat)

  function AfterCompare(s: State, call: nat, pin: nat): State
    requires call in s.calls && s.calls[call].Loaded?
  {
    var read := s.calls[call].read;
    if read.pin.None? || LockedAt(read.lock, s.clock) then s.(calls := s.calls - {call})
    else if read.pin != Some(pin) then s.(calls := s.calls[call := Failed], comparisons := s.comparisons + [s.clock])
    else if read.lock.attempts > 0 then s.(calls := s.calls[call := Passed(read)])
    else s.(calls := s.calls - {call})
  }

  /** An event that is not possible in the current state changes nothing. */
  function Next(cfg: Config, s: State, e: Event): State {
    match e
    case Load(call) => if call in s.calls then s else s.(calls := s.calls[call := Loaded(s.row)])
    case Compare(call, pin) => if call in s.calls && s.calls[call].Loaded? then AfterCompare(s, call, pin) else s
    case Record(call) =>
      if call in s.calls && s.calls[call].Failed?
      then s.(row := s.row.(lock := Fail(s.row.lock, cfg.max, cfg.lockFor, s.clock)), calls := s.calls - {call}) else s
    case WriteBack(call) =>
      if call in s.calls && s.calls[call].Passed?
      then var read := s.calls[call].read;
        s.(row := read.(lock := read.lock.(attempts := 0)), calls := s.calls - {call})
      else s
    case LoadForAccount(call) => if call in s.adding then s else s.(adding := s.adding[call := s.row])
    case SaveCooldown(call) =>
      if call in s.adding
      then s.(row := s.adding[call].(cooldown := Some(s.clock + cfg.cooldown)), adding := s.adding - {call}) else s
    case SetPin(pin) => s.(row := Security(Some(pin), Lock(0, None), Some(s.clock + cfg.cooldown)))
    case Crash(call) => s.(calls := s.calls - {call}, adding := s.adding - {call})
    case Tick(elapsed) => s.(clock := s.clock + elapsed)
  }

  function Continue(cfg: Config, s: State, events: seq<Event>): State
    decreases |events|
  {
    if events == [] then s else Next(cfg, Continue(cfg, s, events[..|events| - 1]), events[|events| - 1])
  }

  lemma OneMore(cfg: Config, s: State, events: seq<Event>, e: Event)
    ensures Continue(cfg, s, events + [e]) == Next(cfg, Continue(cfg, s, events), e)
  {
    assert (events + [e])[..|events|] == events;
  }

  // ---- a check with nothing in between ----

  function Alone(cfg: Config, s: State, call: nat, pin: nat, t: Try): State {
    var compared := Next(cfg, Next(cfg, s, Load(call)), Compare(call, pin));
    var later := Next(cfg, compared, Tick(if t.now <= t.later then t.later - t.now else 0));
    Next(cfg, Next(cfg, later, Record(call)), WriteBack(call))
  }

  /** Undisturbed, the steps of a check come to what Check says of the whole call. */
  lemma CheckAlone(cfg: Config, s: State, call: nat, pin: nat, t: Try)
    requires call !in s.calls && t.now == s.clock && t.now <= t.later && s.row.lock.attempts >= 0
    requires s.row.pin.Some? && t.correct == (s.row.pin == Some(pin))
    ensures var s' := Alone(cfg, s, call, pin, t);
      var (lock, verdict) := Check(s.row.lock, cfg.max, cfg.lockFor, t);
      && s'.row == s.row.(lock := lock) && s'.calls == s.calls
      && s'.comparisons == s.comparisons + (if verdict in {Locked, Accepted} then [] else [t.now])
  {
    var loaded := Next(cfg, s, Load(call));
    var compared := Next(cfg, loaded, Compare(call, pin));
    var later := Next(cfg, compared, Tick(t.later - t.now));
    assert loaded.calls == s.calls[call := Loaded(s.row)];
    if LockedAt(s.row.lock, t.now) {
      assert compared.calls == s.calls;
    } else if !t.correct {
      assert later.calls == s.calls[call := Failed];
      assert later.calls - {call} == s.calls;
    } else if s.row.lock.attempts > 0 {
      assert later.calls == s.calls[call := Passed(s.row)];
      assert later.calls - {call} == s.calls;
    } else {
      assert compared.calls == s.calls;
    }
  }

  // ---- guessing with several checks at once ----

  /** At no moment are more than k checks under way. */
  predicate AtMost(cfg: Config, s: State, events: seq<Event>, k: nat) {
    forall i :: 0 <= i <= |events| ==> |Continue(cfg, s, events[..i]).calls| <= k
  }

  /** Fewer failures counted, or locked for less long. */
  predicate Weakens(p: Lock, p': Lock) {
    p'.attempts < p.attempts
    || (p.lockedUntil.Some? && (p'.lockedUntil.None? || p'.lockedUntil.value < p.lockedUntil.value))
  }

  /** A write other than the counting of a failure weakens the lock, or a failure will never be counted. */
  predicate Undoes(cfg: Config, s: State, e: Event) {
    match e
    case Record(_) => false
    case Crash(call) => call in s.calls && s.calls[call].Failed?
    case _ => Weakens(s.row.lock, Next(cfg, s, e).row.lock)
  }

  /** How many such events happen in [from, from + lockFor). */
  function Undoings(cfg: Config, s: State, events: seq<Event>, from: int): nat
    decreases |events|
  {
    if events == [] then 0
    else
      var n := |events| - 1;
      var before := Continue(cfg, s, events[..n]);
      Undoings(cfg, s, events[..n], from) + if UndoesDuring(cfg, before, events[n], from) then 1 else 0
  }

  predicate UndoesDuring(cfg: Config, s: State, e: Event, from: int) {
    from <= s.clock < from + cfg.lockFor && Undoes(cfg, s, e)
  }

  function Pending(calls: map<nat, Phase>): set<nat> {
    set c | c in calls && calls[c].Failed?
  }

  /** Locked until `end` at least. */
  predicate Until(p: Lock, end: int) {
    p.lockedUntil.Some? && p.lockedUntil.value >= end
  }

  /** The checks that may still compare before `end`. */
  function MayCompare(calls: map<nat, Phase>, end: int): set<nat> {
    set c | c in calls && calls[c].Loaded? && !Until(calls[c].read.lock, end)
  }

  predicate LockOk(cfg: Config, p: Lock) {
    0 <= p.attempts < cfg.max
  }

  predicate ReadsOk(cfg: Config, s: State) {
    && LockOk(cfg, s.row.lock)
    && (forall c :: c in s.calls && !s.calls[c].Failed? ==> LockOk(cfg, s.calls[c].read.lock))
    && (forall c :: c in s.adding ==> LockOk(cfg, s.adding[c].lock))
    && (forall i :: 0 <= i < |s.comparisons| ==> s.comparisons[i] <= s.clock)
  }

  /**
   * Beyond the first `base`, comparisons in [from, from + lockFor) are all counted or about to be; or the PIN is
   * locked to the end of that time and only checks that loaded the row before can add to them; or that time is over.
   */
  predicate Bounded(cfg: Config, s: State, k: nat, from: int, base: int) {
    var during := |During(s.comparisons, from, cfg.lockFor)|;
    var end := from + cfg.lockFor;
    || during <= base + s.row.lock.attempts + |Pending(s.calls)|
    || (Until(s.row.lock, end) && during + |MayCompare(s.calls, end)| <= base + cfg.max + k - 1)
    || (s.clock >= end && during <= base + cfg.max + k - 1)
  }

  lemma DuringAppend(cs: seq<int>, c: int, from: int, lockFor: int)
    ensures |During(cs + [c], from, lockFor)| == |During(cs, from, lockFor)| + if from <= c < from + lockFor then 1
      else 0
  {
    var more := During(cs + [c], from, lockFor);
    if from <= c < from + lockFor {
      assert more == During(cs, from, lockFor) + {|cs|};
    } else {
      assert more == During(cs, from, lockFor);
    }
  }

  /** Failed checks and loaded ones are different checks. */
  lemma UnderWay(calls: map<nat, Phase>, end: int)
    ensures |Pending(calls)| + |MayCompare(calls, end)| <= |calls|
  {
    var both := Pending(calls) + MayCompare(calls, end);
    assert |both| == |Pending(calls)| + |MayCompare(calls, end)|;
    SubsetSize(both, calls.Keys);
    assert |calls.Keys| == |calls|;
  }

  lemma NothingBefore(cs: seq<int>, clock: int, from: int, lockFor: int)
    requires clock < from && forall i :: 0 <= i < |cs| ==> cs[i] <= clock
    ensures During(cs, from, lockFor) == {}
  {
  }

  lemma LoadKeepsBounded(cfg: Config, s: State, k: nat, from: int, base: int, call: nat)
    requires Bounded(cfg, s, k, from, base) && call !in s.calls
    ensures Bounded(cfg, s.(calls := s.calls[call := Loaded(s.row)]), k, from, base)
  {
    hide During, Until;
    var end := from + cfg.lockFor;
    var calls' := s.calls[call := Loaded(s.row)];
    assert Pending(calls') == Pending(s.calls);
    if Until(s.row.lock, end) {
      assert MayCompare(calls', end) == MayCompare(s.calls, end);
    }
  }

  /** A check that has not failed ends, or goes on to its write. */
  lemma LeaveKeepsBounded(cfg: Config, s: State, k: nat, from: int, base: int, call: nat)
    requires Bounded(cfg, s, k, from, base) && (call in s.calls ==> !s.calls[call].Failed?)
    ensures Bounded(cfg, s.(calls := s.calls - {call}), k, from, base)
    ensures forall read :: Bounded(cfg, s.(calls := s.calls[call := Passed(read)]), k, from, base)
  {
    hide During, Until;
    var end := from + cfg.lockFor;
    var calls' := s.calls - {call};
    assert Pending(calls') == Pending(s.calls);
    assert MayCompare(calls', end) == MayCompare(s.calls, end) - {call};
    forall read ensures Pending(s.calls[call := Passed(read)]) == Pending(s.calls)
                        && MayCompare(s.calls[call := Passed(read)], end) == MayCompare(s.calls, end) - {call} {
    }
  }

  lemma CompareKeepsBounded(cfg: Config, s: State, k: nat, from: int, base: int, call: nat)
    requires Bounded(cfg, s, k, from, base) && call in s.calls && s.calls[call].Loaded?
    requires !LockedAt(s.calls[call].read.lock, s.clock)
    ensures Bounded(cfg, s.(calls := s.calls[call := Failed], comparisons := s.comparisons + [s.clock]), k, from, base)
  {
    hide During;
    var end := from + cfg.lockFor;
    var calls' := s.calls[call := Failed];
    DuringAppend(s.comparisons, s.clock, from, cfg.lockFor);
    assert Pending(calls') == Pending(s.calls) + {call} && call !in Pending(s.calls);
    assert MayCompare(calls', end) == MayCompare(s.calls, end) - {call};
    assert s.clock < end ==> call in MayCompare(s.calls, end);
  }

  lemma RecordKeepsBounded(cfg: Config, s: State, k: nat, from: int, base: int, call: nat)
    requires Bounded(cfg, s, k, from, base) && ReadsOk(cfg, s) && base >= 0
    requires |s.calls| <= k && call in s.calls && s.calls[call].Failed?
    ensures Bounded(cfg, Next(cfg, s, Record(call)), k, from, base)
  {
    hide During;
    var end := from + cfg.lockFor;
    var calls' := s.calls - {call};
    assert Pending(calls') == Pending(s.calls) - {call} && call in Pending(s.calls);
    assert MayCompare(calls', end) == MayCompare(s.calls, end);
    UnderWay(s.calls, end);
    if s.clock < from {
      NothingBefore(s.comparisons, s.clock, from, cfg.lockFor);
    }
  }

  /** A write that does not weaken the lock. */
  lemma StrongerKeepsBounded(cfg: Config, s: State, k: nat, from: int, base: int, row: Security)
    requires Bounded(cfg, s, k, from, base) && !Weakens(s.row.lock, row.lock)
    ensures Bounded(cfg, s.(row := row), k, from, base)
  {
    hide During, Pending, MayCompare;
  }

  /**
   * Whatever else happens, comparisons made so far are at most base + max + k - 1, and start to count anew from
   * there.
   */
  lemma AnewAfterUndoing(cfg: Config, s: State, k: nat, from: int, base: int, s': State)
    requires Bounded(cfg, s, k, from, base) && ReadsOk(cfg, s) && |s.calls| <= k && k >= 1 && base >= 0
    requires s'.comparisons == s.comparisons && s'.clock == s.clock && LockOk(cfg, s'.row.lock)
    ensures Bounded(cfg, s', k, from, base + cfg.max + k - 1)
    ensures !(from <= s.clock < from + cfg.lockFor) ==> Bounded(cfg, s', k, from, base)
  {
    hide During;
    UnderWay(s.calls, from + cfg.lockFor);
    if s.clock < from {
      NothingBefore(s.comparisons, s.clock, from, cfg.lockFor);
    }
  }

  lemma NextKeepsReads(cfg: Config, s: State, e: Event)
    requires ReadsOk(cfg, s)
    ensures ReadsOk(cfg, Next(cfg, s, e))
  {
  }

  /** A step that is an undoing or may be one: any write but the counting of a failure, and a crash. */
  predicate Rewrites(e: Event) {
    e.WriteBack? || e.SaveCooldown? || e.SetPin? || e.Crash?
  }

  lemma WriteBackKeepsBounded(cfg: Config, s: State, k: nat, from: int, base: int, call: nat)
    requires Bounded(cfg, s, k, from, base) && call in s.calls && s.calls[call].Passed?
    requires !Weakens(s.row.lock, Next(cfg, s, WriteBack(call)).row.lock)
    ensures Bounded(cfg, Next(cfg, s, WriteBack(call)), k, from, base)
  {
    hide Bounded, Weakens;
    LeaveKeepsBounded(cfg, s, k, from, base, call);
    StrongerKeepsBounded(cfg, s.(calls := s.calls - {call}), k, from, base, Next(cfg, s, WriteBack(call)).row);
  }

  lemma SaveKeepsBounded(cfg: Config, s: State, k: nat, from: int, base: int, call: nat)
    requires Bounded(cfg, s, k, from, base) && call in s.adding
    requires !Weakens(s.row.lock, Next(cfg, s, SaveCooldown(call)).row.lock)
    ensures Bounded(cfg, Next(cfg, s, SaveCooldown(call)), k, from, base)
  {
    hide Bounded, Weakens;
    var s' := Next(cfg, s, SaveCooldown(call));
    StrongerKeepsBounded(cfg, s, k, from, base, s'.row);
    SameBound(cfg, s.(row := s'.row), s', k, from, base);
  }

  lemma CrashKeepsBounded(cfg: Config, s: State, k: nat, from: int, base: int, call: nat)
    requires Bounded(cfg, s, k, from, base) && (call in s.calls ==> !s.calls[call].Failed?)
    ensures Bounded(cfg, Next(cfg, s, Crash(call)), k, from, base)
  {
    hide Bounded;
    LeaveKeepsBounded(cfg, s, k, from, base, call);
    SameBound(cfg, s.(calls := s.calls - {call}), Next(cfg, s, Crash(call)), k, from, base);
  }

  lemma RewriteKeepsBounded(cfg: Config, s: State, k: nat, from: int, base: int, e: Event)
    requires Bounded(cfg, s, k, from, base) && ReadsOk(cfg, s) && |s.calls| <= k && k >= 1 && base >= 0
    requires Rewrites(e)
    ensures Bounded(cfg, Next(cfg, s, e), k, from, base + if UndoesDuring(cfg, s, e, from) then cfg.max + k - 1 else 0)
  {
    hide Bounded, Weakens;
    NextKeepsReads(cfg, s, e);
    if Undoes(cfg, s, e) {
      AnewAfterUndoing(cfg, s, k, from, base, Next(cfg, s, e));
    } else {
      hide ReadsOk;
      match e
      case SetPin(_) => StrongerKeepsBounded(cfg, s, k, from, base, Next(cfg, s, e).row);
      case WriteBack(call) =>
        if call in s.calls && s.calls[call].Passed? { WriteBackKeepsBounded(cfg, s, k, from, base, call); }
      case SaveCooldown(call) => if call in s.adding { SaveKeepsBounded(cfg, s, k, from, base, call); }
      case Crash(call) => CrashKeepsBounded(cfg, s, k, from, base, call);
      case _ =>
    }
  }

  /** Bank accounts under way do not matter. */
  lemma SameBound(cfg: Config, s: State, s': State, k: nat, from: int, base: int)
    requires Bounded(cfg, s, k, from, base) && s' == s.(adding := s'.adding)
    ensures Bounded(cfg, s', k, from, base)
  {
  }

  lemma TickKeepsBounded(cfg: Config, s: State, k: nat, from: int, base: int, elapsed: nat)
    requires Bounded(cfg, s, k, from, base)
    ensures Bounded(cfg, Next(cfg, s, Tick(elapsed)), k, from, base)
  {
    hide During, Pending, MayCompare, Until;
  }

  lemma NextKeepsBounded(cfg: Config, s: State, k: nat, from: int, base: int, e: Event)
    requires Bounded(cfg, s, k, from, base) && ReadsOk(cfg, s) && |s.calls| <= k && k >= 1 && base >= 0
    ensures Bounded(cfg, Next(cfg, s, e), k, from, base + if UndoesDuring(cfg, s, e, from) then cfg.max + k - 1 else 0)
  {
    if Rewrites(e) {
      RewriteKeepsBounded(cfg, s, k, from, base, e);
    } else {
      NothingUndone(cfg, s, e);
      hide Bounded, Fail, LockedAt, ReadsOk, Undoes;
      match e
      case Load(call) => if call !in s.calls { LoadKeepsBounded(cfg, s, k, from, base, call); }
      case Compare(call, _) =>
        if call in s.calls && s.calls[call].Loaded? {
          LeaveKeepsBounded(cfg, s, k, from, base, call);
          if !LockedAt(s.calls[call].read.lock, s.clock) {
            CompareKeepsBounded(cfg, s, k, from, base, call);
          }
        }
      case Record(call) => if call in s.calls
        && s.calls[call].Failed? { RecordKeepsBounded(cfg, s, k, from, base, call); }
      case LoadForAccount(call) => SameBound(cfg, s, Next(cfg, s, e), k, from, base);
      case Tick(elapsed) => TickKeepsBounded(cfg, s, k, from, base, elapsed);
    }
  }

  lemma NothingUndone(cfg: Config, s: State, e: Event)
    requires !Rewrites(e)
    ensures !Undoes(cfg, s, e)
  {
  }

  /** u * top, step by step. */
  function Times(u: nat, top: nat): nat {
    if u == 0 then 0 else Times(u - 1, top) + top
  }

  lemma {:induction false} TimesIsProduct(u: nat, top: nat)
    ensures Times(u, top) == u * top
  {
    if u > 0 {
      TimesIsProduct(u - 1, top);
    }
  }

  lemma {:induction false} RunIsBounded(cfg: Config, s: State, events: seq<Event>, k: nat, from: int)
    requires ReadsOk(cfg, s) && s.calls == map[] && s.comparisons == [] && AtMost(cfg, s, events, k) && k >= 1
    requires cfg.max >= 1
    ensures ReadsOk(cfg, Continue(cfg, s, events))
    ensures Bounded(cfg, Continue(cfg, s, events), k, from, Times(Undoings(cfg, s, events, from), cfg.max + k - 1))
    decreases |events|
  {
    hide Next, ReadsOk, UndoesDuring;
    if events == [] {
      NothingYet(cfg, s, k, from);
    } else {
      hide Bounded;
      var before := events[..|events| - 1];
      assert forall i :: 0 <= i <= |before| ==> before[..i] == events[..i];
      RunIsBounded(cfg, s, before, k, from);
      assert before[..|before|] == before && events[..|before|] == before;
      NextKeepsReads(cfg, Continue(cfg, s, before), events[|before|]);
      NextKeepsBounded(cfg, Continue(cfg, s, before), k, from, Times(Undoings(cfg, s, before, from), cfg.max + k - 1),
                       events[|before|]);
    }
  }

  lemma MaxIsPositive(cfg: Config, s: State)
    requires ReadsOk(cfg, s)
    ensures cfg.max >= 1
  {
  }

  lemma NothingYet(cfg: Config, s: State, k: nat, from: int)
    requires ReadsOk(cfg, s) && s.calls == map[] && s.comparisons == []
    ensures Bounded(cfg, s, k, from, 0)
  {
    assert During([], from, cfg.lockFor) == {};
  }

  /**
   * With at most k checks under way at a time and u writes or crashes that undo failures, no half-open interval as
   * long as the lock contains more than (u + 1) * (max + k - 1) comparisons of a wrong PIN: in every interleaving,
   * right PINs, new PINs and new bank accounts included.
   */
  lemma FewGuessesAtOnce(cfg: Config, s: State, events: seq<Event>, k: nat, from: int)
    requires ReadsOk(cfg, s) && s.calls == map[] && s.comparisons == [] && AtMost(cfg, s, events, k) && k >= 1
    ensures |During(Continue(cfg, s, events).comparisons, from, cfg.lockFor)|
         <= (Undoings(cfg, s, events, from) + 1) * (cfg.max + k - 1)
  {
    hide Continue, During, Undoings, Bounded, ReadsOk;
    MaxIsPositive(cfg, s);
    RunIsBounded(cfg, s, events, k, from);
    var s' := Continue(cfg, s, events);
    assert |s'.calls| <= k by { assert events[..|events|] == events; }
    var u, top := Undoings(cfg, s, events, from), cfg.max + k - 1;
    TimesIsProduct(u + 1, top);
    BoundedSoFar(cfg, s', k, from, Times(u, top));
  }

  lemma BoundedSoFar(cfg: Config, s: State, k: nat, from: int, base: int)
    requires Bounded(cfg, s, k, from, base) && ReadsOk(cfg, s) && |s.calls| <= k && k >= 1
    ensures |During(s.comparisons, from, cfg.lockFor)| <= base + cfg.max + k - 1
  {
    hide During;
    UnderWay(s.calls, from + cfg.lockFor);
  }

  // ---- runs from the start ----

  /** The run has at most k checks under way, u undoings before lockFor has passed, and ends in s. */
  predicate Reaches(cfg: Config, events: seq<Event>, k: nat, u: nat, s: State) {
    AtMost(cfg, START, events, k) && Undoings(cfg, START, events, 0) == u && Continue(cfg, START, events) == s
  }

  lemma Begins(cfg: Config, k: nat)
    ensures Reaches(cfg, [], k, 0, START)
  {
  }

  lemma Then(cfg: Config, events: seq<Event>, k: nat, u: nat, s: State, e: Event) returns (more: seq<Event>)
    requires Reaches(cfg, events, k, u, s) && |Next(cfg, s, e).calls| <= k
    ensures Reaches(cfg, more, k, u + if UndoesDuring(cfg, s, e, 0) then 1 else 0, Next(cfg, s, e))
    ensures more == events + [e]
  {
    hide Next, UndoesDuring, Continue, AtMost;
    more := events + [e];
    OneMore(cfg, START, events, e);
    assert more[..|events|] == events;
    OneMoreAtMost(cfg, events, e, k);
  }

  lemma OneMoreAtMost(cfg: Config, events: seq<Event>, e: Event, k: nat)
    requires AtMost(cfg, START, events, k) && |Continue(cfg, START, events + [e]).calls| <= k
    ensures AtMost(cfg, START, events + [e], k)
  {
    hide Continue;
    var more := events + [e];
    forall i | 0 <= i <= |more| ensures |Continue(cfg, START, more[..i]).calls| <= k {
      if i <= |events| {
        assert more[..i] == events[..i];
      } else {
        assert more[..i] == more;
      }
    }
  }

  function Zeros(n: nat): seq<int> {
    seq(n, _ => 0)
  }

  /** PIN 0 is set, nothing has failed, and n wrong PINs have been compared. */
  function Fresh(cfg: Config, n: nat): State {
    State(Security(Some(0), Lock(0, None), Some(cfg.cooldown)), map[], map[], 0, Zeros(n))
  }

  lemma PinIsSet(cfg: Config, k: nat) returns (events: seq<Event>)
    ensures Reaches(cfg, events, k, 0, Fresh(cfg, 0))
  {
    hide Reaches;
    Begins(cfg, k);
    assert START.comparisons == Zeros(0);
    assert Next(cfg, START, SetPin(0)) == Fresh(cfg, 0) && !UndoesDuring(cfg, START, SetPin(0), 0);
    events := Then(cfg, [], k, 0, START, SetPin(0));
  }

  /** A wrong try of an unlocked PIN, from the load to the count. */
  lemma OneTry(cfg: Config, events: seq<Event>, k: nat, u: nat, s: State) returns (more: seq<Event>)
    requires Reaches(cfg, events, k, u, s) && k >= 1
    requires s.calls == map[] && s.row.pin == Some(0) && s.row.lock.lockedUntil.None?
    ensures Reaches(cfg, more, k, u,
                    s.(row := s.row.(lock := Fail(s.row.lock, cfg.max, cfg.lockFor, s.clock)),
                       comparisons := s.comparisons + [s.clock]))
  {
    hide Reaches, Fail;
    var s1 := s.(calls := map[0 := Loaded(s.row)]);
    var s2 := s.(calls := map[0 := Failed], comparisons := s.comparisons + [s.clock]);
    assert Next(cfg, s, Load(0)) == s1 && Next(cfg, s1, Compare(0, 1)) == s2;
    assert s2.calls - {0} == s.calls;
    more := Then(cfg, events, k, u, s, Load(0));
    more := Then(cfg, more, k, u, s1, Compare(0, 1));
    more := Then(cfg, more, k, u, s2, Record(0));
  }

  /** Wrong tries one after the other, up to the last that does not lock. */
  lemma {:induction false} OneByOne(cfg: Config, events: seq<Event>, k: nat, u: nat, s: State, n: nat)
    returns (more: seq<Event>)
    requires Reaches(cfg, events, k, u, s) && k >= 1 && n < cfg.max
    requires s.calls == map[] && s.row.pin == Some(0) && s.row.lock == Lock(0, None) && s.clock == 0
    ensures Reaches(cfg, more, k, u, s.(row := s.row.(lock := Lock(n, None)), comparisons := s.comparisons + Zeros(n)))
  {
    hide Reaches;
    more := events;
    if n > 0 {
      more := OneByOne(cfg, events, k, u, s, n - 1);
      assert Zeros(n) == Zeros(n - 1) + [0];
      assert s.comparisons + Zeros(n) == s.comparisons + Zeros(n - 1) + [0];
      more := OneTry(cfg, more, k, u,
                     s.(row := s.row.(lock := Lock(n - 1, None)), comparisons := s.comparisons + Zeros(n - 1)));
    } else {
      assert s.comparisons + Zeros(0) == s.comparisons;
    }
  }

  /** All the tries that are allowed; the last one locks. */
  lemma UpToTheLock(cfg: Config, events: seq<Event>, k: nat, u: nat, s: State) returns (more: seq<Event>)
    requires Reaches(cfg, events, k, u, s) && k >= 1 && cfg.max >= 1
    requires s.calls == map[] && s.row.pin == Some(0) && s.row.lock == Lock(0, None) && s.clock == 0
    ensures Reaches(cfg, more, k, u,
                    s.(row := s.row.(lock := Lock(0, Some(cfg.lockFor))),
                       comparisons := s.comparisons + Zeros(cfg.max)))
  {
    hide Reaches;
    var n := cfg.max - 1;
    more := OneByOne(cfg, events, k, u, s, n);
    assert s.comparisons + Zeros(cfg.max) == s.comparisons + Zeros(n) + [0];
    more := OneTry(cfg, more, k, u, s.(row := s.row.(lock := Lock(n, None)), comparisons := s.comparisons + Zeros(n)));
  }

  // -- without an undoing --

  /** Checks 0 to j - 1 have loaded the row p; the first m of them have failed. */
  function Batch(m: nat, j: nat, p: Security): (calls: map<nat, Phase>)
    ensures forall c: nat :: c in calls <==> c < j
    ensures forall c :: c in calls ==> calls[c] == if c < m then Failed else Loaded(p)
    ensures |calls| == j
  {
    if j == 0 then map[] else Batch(m, j - 1, p)[j - 1 := if j - 1 < m then Failed else Loaded(p)]
  }

  /** One try before the lock, j checks have loaded the row and m of them have failed. */
  function Crowd(cfg: Config, m: nat, j: nat): State
    requires cfg.max >= 1
  {
    var p := Fresh(cfg, 0).row.(lock := Lock(cfg.max - 1, None));
    State(p, Batch(m, j, p), map[], 0, Zeros(cfg.max - 1 + m))
  }

  /** j checks load the row at the same time. */
  lemma {:induction false} Together(cfg: Config, j: nat, k: nat) returns (events: seq<Event>)
    requires cfg.max >= 1 && j <= k && k >= 1
    ensures Reaches(cfg, events, k, 0, Crowd(cfg, 0, j))
  {
    hide Reaches, Batch;
    if j == 0 {
      events := PinIsSet(cfg, k);
      events := OneByOne(cfg, events, k, 0, Fresh(cfg, 0), cfg.max - 1);
      assert Zeros(0) + Zeros(cfg.max - 1) == Zeros(cfg.max - 1);
      assert Crowd(cfg, 0, 0).calls == map[];
    } else {
      events := Together(cfg, j - 1, k);
      var s := Crowd(cfg, 0, j - 1);
      assert Batch(0, j, s.row) == Batch(0, j - 1, s.row)[j - 1 := Loaded(s.row)];
      events := Then(cfg, events, k, 0, s, Load(j - 1));
    }
  }

  /** All of them compare, the first m so far. */
  lemma {:induction false} ThenCompare(cfg: Config, m: nat, k: nat) returns (events: seq<Event>)
    requires cfg.max >= 1 && m <= k && k >= 1
    ensures Reaches(cfg, events, k, 0, Crowd(cfg, m, k))
  {
    hide Reaches, Batch;
    if m == 0 {
      events := Together(cfg, k, k);
    } else {
      events := ThenCompare(cfg, m - 1, k);
      var s := Crowd(cfg, m - 1, k);
      assert Batch(m, k, s.row) == Batch(m - 1, k, s.row)[m - 1 := Failed];
      assert Zeros(cfg.max - 1 + m) == Zeros(cfg.max - 1 + m - 1) + [0];
      events := Then(cfg, events, k, 0, s, Compare(m - 1, 1));
    }
  }

  lemma AllDuring(cfg: Config, n: nat)
    requires cfg.lockFor > 0
    ensures |During(Zeros(n), 0, cfg.lockFor)| == n
  {
    assert During(Zeros(n), 0, cfg.lockFor) == Range(0, n);
  }

  /** Without an undoing max + k - 1 comparisons do happen, even at one moment: the bound is exact. */
  lemma BoundIsReached(cfg: Config, k: nat) returns (events: seq<Event>)
    requires cfg.max >= 1 && cfg.lockFor > 0 && k >= 1
    ensures AtMost(cfg, START, events, k) && Undoings(cfg, START, events, 0) == 0
    ensures |During(Continue(cfg, START, events).comparisons, 0, cfg.lockFor)| == cfg.max + k - 1
  {
    hide Continue, Batch, Next, AtMost, Undoings;
    events := ThenCompare(cfg, k, k);
    AllDuring(cfg, cfg.max + k - 1);
  }

  // -- with one --

  /** After the last try, a bank account that was being added before the first one. */
  lemma LockedWhileAdding(cfg: Config) returns (events: seq<Event>)
    requires cfg.max >= 1
    ensures var s := Fresh(cfg, cfg.max);
      Reaches(cfg, events, 1, 0, s.(row := s.row.(lock := Lock(0, Some(cfg.lockFor))), adding := map[0 := s.row]))
  {
    hide Reaches;
    var s := Fresh(cfg, 0);
    events := PinIsSet(cfg, 1);
    events := Then(cfg, events, 1, 0, s, LoadForAccount(0));
    assert Next(cfg, s, LoadForAccount(0)) == s.(adding := map[0 := s.row]);
    events := UpToTheLock(cfg, events, 1, 0, s.(adding := map[0 := s.row]));
    assert Zeros(0) + Zeros(cfg.max) == Zeros(cfg.max);
  }

  /** The write of that bank account, which makes no check, lifts the lock. */
  lemma AccountLiftsLock(cfg: Config) returns (events: seq<Event>)
    requires cfg.max >= 1 && cfg.lockFor > 0
    ensures Reaches(cfg, events, 1, 1, Fresh(cfg, cfg.max))
    ensures |events| > 0 && events[|events| - 1] == SaveCooldown(0)
    ensures LockedAt(Continue(cfg, START, events[..|events| - 1]).row.lock, 0)
  {
    hide Reaches;
    var s := Fresh(cfg, cfg.max);
    var locked := s.(row := s.row.(lock := Lock(0, Some(cfg.lockFor))), adding := map[0 := s.row]);
    var before := LockedWhileAdding(cfg);
    assert Next(cfg, locked, SaveCooldown(0)) == s by { assert locked.adding - {0} == map[]; }
    assert UndoesDuring(cfg, locked, SaveCooldown(0), 0);
    events := Then(cfg, before, 1, 0, locked, SaveCooldown(0));
    assert events[..|events| - 1] == before;
    assert Continue(cfg, START, before) == locked by { EndsThere(cfg, before, 1, 0, locked); }
  }

  lemma EndsThere(cfg: Config, events: seq<Event>, k: nat, u: nat, s: State)
    requires Reaches(cfg, events, k, u, s)
    ensures Continue(cfg, START, events) == s
  {
  }

  /**
   * One such write doubles the comparisons, with one check at a time and without a right PIN: what the bound allows
   * for u = 1.
   */
  lemma OneUndoingDoubles(cfg: Config) returns (events: seq<Event>)
    requires cfg.max >= 1 && cfg.lockFor > 0
    ensures AtMost(cfg, START, events, 1) && Undoings(cfg, START, events, 0) == 1
    ensures |During(Continue(cfg, START, events).comparisons, 0, cfg.lockFor)| == 2 * cfg.max
  {
    hide Continue, Next, AtMost, Undoings;
    events := AccountLiftsLock(cfg);
    events := UpToTheLock(cfg, events, 1, 1, Fresh(cfg, cfg.max));
    assert Zeros(cfg.max) + Zeros(cfg.max) == Zeros(2 * cfg.max);
    AllDuring(cfg, 2 * cfg.max);
  }

  // ---- what stale writes undo ----

  /** The step writes a row whose copy was loaded earlier. */
  function Stale(s: State, e: Event): Option<Security> {
    match e
    case WriteBack(call) => if call in s.calls && s.calls[call].Passed? then Some(s.calls[call].read) else None
    case SaveCooldown(call) => if call in s.adding then Some(s.adding[call]) else None
    case _ => None
  }

  /** A lock that still runs is lifted exactly by a new PIN, or by writing back a row that was loaded without it. */
  lemma LockIsLiftedIff(cfg: Config, s: State, e: Event)
    requires cfg.lockFor > 0 && LockedAt(s.row.lock, s.clock) && !e.Tick?
    ensures !LockedAt(Next(cfg, s, e).row.lock, s.clock)
       <==> e.SetPin? || (Stale(s, e).Some? && !LockedAt(Stale(s, e).value.lock, s.clock))
  {
  }

  /** Two checks have loaded the row before the last try; one fails, the other is right. */
  lemma BothCompared(cfg: Config) returns (events: seq<Event>)
    requires cfg.max >= 2
    ensures var s := Fresh(cfg, cfg.max);
      var row := s.row.(lock := Lock(cfg.max - 1, None));
      Reaches(cfg, events, 2, 0, s.(row := row, calls := map[0 := Failed, 1 := Passed(row)]))
  {
    hide Reaches;
    var n := cfg.max - 1;
    var s := Fresh(cfg, n);
    var row := s.row.(lock := Lock(n, None));
    events := PinIsSet(cfg, 2);
    events := OneByOne(cfg, events, 2, 0, Fresh(cfg, 0), n);
    assert Zeros(0) + Zeros(n) == Zeros(n) && Zeros(n) + [0] == Zeros(cfg.max);
    var s0 := s.(row := row);
    var s1 := s0.(calls := map[0 := Loaded(row)]);
    var s2 := s0.(calls := map[0 := Loaded(row), 1 := Loaded(row)]);
    var s3 := s0.(calls := map[0 := Failed, 1 := Loaded(row)], comparisons := Zeros(cfg.max));
    assert Next(cfg, s0, Load(0)) == s1 && Next(cfg, s1, Load(1)) == s2;
    assert Next(cfg, s2, Compare(0, 1)) == s3;
    assert Next(cfg, s3, Compare(1, 0)) == s3.(calls := map[0 := Failed, 1 := Passed(row)]);
    events := Then(cfg, events, 2, 0, s0, Load(0));
    events := Then(cfg, events, 2, 0, s1, Load(1));
    events := Then(cfg, events, 2, 0, s2, Compare(0, 1));
    events := Then(cfg, events, 2, 0, s3, Compare(1, 0));
  }

  /** The failure locks the PIN, and the success lifts the lock again. */
  lemma SuccessLiftsLock(cfg: Config) returns (before: seq<Event>)
    requires cfg.max >= 2 && cfg.lockFor > 0
    ensures LockedAt(Continue(cfg, START, before).row.lock, Continue(cfg, START, before).clock)
    ensures Continue(cfg, START, before + [WriteBack(1)]).row.lock == Lock(0, None)
  {
    hide Reaches, Continue;
    var s := Fresh(cfg, cfg.max);
    var row := s.row.(lock := Lock(cfg.max - 1, None));
    var both := s.(row := row, calls := map[0 := Failed, 1 := Passed(row)]);
    before := BothCompared(cfg);
    EndsThere(cfg, before, 2, 0, both);
    OneMore(cfg, START, before, Record(0));
    before := before + [Record(0)];
    OneMore(cfg, START, before, WriteBack(1));
  }

  /** A new PIN and a new bank account both start the cooldown; a new PIN starts without failures or lock. */
  lemma ChangeStartsCooldown(cfg: Config, s: State, e: Event, now: int)
    requires e.SetPin? || (e.SaveCooldown? && e.call in s.adding)
    ensures var row := Next(cfg, s, e).row;
      && row.cooldown.Some? && (row.cooldown.value > now <==> now - s.clock < cfg.cooldown)
      && (e.SetPin? ==> row.pin == Some(e.pin) && row.lock.attempts == 0 && !LockedAt(row.lock, now))
      && (e.SaveCooldown? ==> row.pin == s.adding[e.call].pin && row.lock == s.adding[e.call].lock)
  {
  }

  /** The PIN changes exactly by setting it, or by writing back a row with another one. */
  lemma PinChangesIff(cfg: Config, s: State, e: Event)
    ensures Next(cfg, s, e).row.pin != s.row.pin
       <==> (e.SetPin? && s.row.pin != Some(e.pin)) || (Stale(s, e).Some? && Stale(s, e).value.pin != s.row.pin)
  {
  }

  /** A cooldown that still runs is cut short exactly by writing back a success whose row was loaded before it. */
  lemma CooldownIsCutIff(cfg: Config, s: State, e: Event)
    requires s.row.cooldown.Some? && s.row.cooldown.value <= s.clock + cfg.cooldown
    ensures (Next(cfg, s, e).row.cooldown.None? || Next(cfg, s, e).row.cooldown.value < s.row.cooldown.value)
       <==> e.WriteBack? && Stale(s, e).Some?
            && (Stale(s, e).value.cooldown.None? || Stale(s, e).value.cooldown.value < s.row.cooldown.value)
  {
  }

  /** A right check that loaded the row after one failure. */
  lemma PassedOnce(cfg: Config) returns (events: seq<Event>)
    requires cfg.max >= 2
    ensures var s := Fresh(cfg, 1);
      var row := s.row.(lock := Lock(1, None));
      Reaches(cfg, events, 2, 0, s.(row := row, calls := map[0 := Passed(row)]))
  {
    hide Reaches;
    var s := Fresh(cfg, 0);
    events := PinIsSet(cfg, 2);
    events := OneByOne(cfg, events, 2, 0, s, 1);
    assert Zeros(0) + Zeros(1) == Zeros(1);
    var row := s.row.(lock := Lock(1, None));
    var failed := Fresh(cfg, 1).(row := row);
    events := Then(cfg, events, 2, 0, failed, Load(0));
    var loaded := failed.(calls := map[0 := Loaded(row)]);
    assert Next(cfg, failed, Load(0)) == loaded;
    assert Next(cfg, loaded, Compare(0, 0)) == failed.(calls := map[0 := Passed(row)]);
    events := Then(cfg, events, 2, 0, loaded, Compare(0, 0));
  }

  lemma OldRowIsBack(cfg: Config, s: State, read: Security)
    requires s.calls == map[0 := Passed(read)]
    ensures Next(cfg, Next(cfg, s, SetPin(2)), WriteBack(0)) ==
      s.(row := read.(lock := read.lock.(attempts := 0)), calls := map[])
  {
    assert s.calls - {0} == map[];
  }

  /** A new PIN and its cooldown are gone after a check of the old one writes its row back. */
  lemma NewPinIsUndone(cfg: Config) returns (before: seq<Event>)
    requires cfg.max >= 2
    ensures Continue(cfg, START, before).clock == 1
    ensures Continue(cfg, START, before + [SetPin(2)] + [WriteBack(0)]).row ==
      Security(Some(0), Lock(0, None), Some(cfg.cooldown))
  {
    hide Reaches, Next, Continue, UndoesDuring;
    var s := Fresh(cfg, 1);
    var row := s.row.(lock := Lock(1, None));
    var passed := s.(row := row, calls := map[0 := Passed(row)]);
    before := PassedOnce(cfg);
    EndsThere(cfg, before, 2, 0, passed);
    OneMore(cfg, START, before, Tick(1));
    before := before + [Tick(1)];
    assert Next(cfg, passed, Tick(1)) == passed.(clock := 1) by { Ticks(cfg, passed, 1); }
    OldRowIsBack(cfg, passed.(clock := 1), row);
    OneMore(cfg, START, before, SetPin(2));
    OneMore(cfg, START, before + [SetPin(2)], WriteBack(0));
  }

  lemma Ticks(cfg: Config, s: State, elapsed: nat)
    ensures Next(cfg, s, Tick(elapsed)) == s.(clock := s.clock + elapsed)
  {
  }
}
