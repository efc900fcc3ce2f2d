/**
 * The debounce engine (`DebounceInput`): a queue of keys that have gone
 * down, in the order they were first observed, each with the time it was
 * observed; the key released most recently; and whether the hardware scan
 * has reported no input (more than 100 quiet ticks in a row) since the last
 * observation. A key goes down
 * at the sink the moment it is first observed and goes up once it has stayed
 * in the queue for its dwell time.
 *
 * The functions below give the engine's behaviour on an abstract `Engine`
 * value; the class `DebounceInput` at the end updates its fields in place
 * and is proved to follow them.
 */
module Debounce {
  import opened Keys
  import opened Hid

  /** A queued key and the time at which it was observed. */
  datatype Pending = Pending(key: Key, observedAt: real)

  function KeysOf(q: seq<Pending>): (r: seq<Key>)
    ensures |r| == |q| && forall i :: 0 <= i < |q| ==> r[i] == q[i].key
  {
    seq(|q|, i requires 0 <= i < |q| => q[i].key)
  }

  /** A dictionary keeps one entry per key. */
  predicate Distinct(q: seq<Pending>)
  {
    forall i, j :: 0 <= i < j < |q| ==> q[i].key != q[j].key
  }

  predicate NoDuplicates(ks: seq<Key>)
  {
    forall i, j :: 0 <= i < j < |ks| ==> ks[i] != ks[j]
  }

  /**
   * The engine together with the state of the sink it drives: the queue,
   * `recent_release`, `no_input_registered`, the sink's `shift_down` and the
   * sink's event log.
   */
  datatype Engine = Engine(
    queue: seq<Pending>,
    recent: Option<Key>,
    noInput: bool,
    shiftDown: bool,
    log: seq<Event>)

  /** The sink receives `events`. */
  function Emit(e: Engine, events: seq<Event>): (r: Engine)
    ensures r.log == e.log + events && r.shiftDown == ShiftAfter(e.shiftDown, events)
    ensures r.queue == e.queue && r.recent == e.recent && r.noInput == e.noInput
  {
    e.(log := e.log + events, shiftDown := ShiftAfter(e.shiftDown, events))
  }

  /**
   * `input(value)` at time `now`: the specification is resolved against the
   * sink's live shift flag; a key not yet queued goes down and is queued
   * with time `now`; every call clears `no_input_registered`.
   */
  function InputStep(e: Engine, spec: KeySpec, now: real): Engine
  {
    var (key, escape) := Resolve(spec, e.shiftDown);
    if key in KeysOf(e.queue) then e.(noInput := false)
    else Emit(e.(noInput := false, queue := e.queue + [Pending(key, now)]), DownEvents(key, escape))
  }

  /** `no_input()`. */
  function NoInputStep(e: Engine): Engine
  {
    e.(noInput := true)
  }

  /**
   * The time a queued key must stay queued: the short delay when it is the
   * key released most recently, else half the delay after a tick with no
   * input, else the delay.
   */
  function Dwell(key: Key, recent: Option<Key>, noInput: bool, delay: real, shortDelay: real): (r: real)
    ensures r == shortDelay || r == delay / 2.0 || r == delay
    ensures r == shortDelay <== recent == Some(key)
    ensures recent != Some(key) ==> r == if noInput then delay / 2.0 else delay
  {
    if recent == Some(key) then shortDelay else if noInput then delay / 2.0 else delay
  }

  /** An entry expires once its time plus its dwell lies strictly before `now`. */
  predicate Expires(p: Pending, recent: Option<Key>, noInput: bool, delay: real, shortDelay: real, now: real)
  {
    p.observedAt + Dwell(p.key, recent, noInput, delay, shortDelay) < now
  }

  /**
   * The outcome of one pass of `check` over a queue: the entries kept, in
   * their order, `recent_release` afterwards, and the keys released, in the
   * order they were released.
   */
  datatype PassResult = PassResult(kept: seq<Pending>, recent: Option<Key>, released: seq<Key>)

  /**
   * One pass of `check` over the entries of `q` in order. An entry is
   * judged against `recent_release` as the earlier entries of the same pass
   * have left it.
   */
  function Pass(q: seq<Pending>, recent: Option<Key>, noInput: bool, delay: real, shortDelay: real, now: real): PassResult
  {
    if q == [] then PassResult([], recent, [])
    else
      var s := Pass(q[..|q| - 1], recent, noInput, delay, shortDelay, now);
      var p := q[|q| - 1];
      if Expires(p, s.recent, noInput, delay, shortDelay, now)
      then PassResult(s.kept, Some(p.key), s.released + [p.key])
      else PassResult(s.kept + [p], s.recent, s.released)
  }

  /** The events of releasing `keys` one after another. */
  function UpAll(keys: seq<Key>): seq<Event>
  {
    if keys == [] then [] else UpAll(keys[..|keys| - 1]) + UpEvents(keys[|keys| - 1])
  }

  /** `check()` at time `now`. */
  function CheckStep(e: Engine, delay: real, shortDelay: real, now: real): Engine
  {
    var s := Pass(e.queue, e.recent, e.noInput, delay, shortDelay, now);
    Emit(e.(queue := s.kept, recent := s.recent), UpAll(s.released))
  }

  // ---------------------------------------------------------------------
  // Input: at most one pending entry per key.

  /** A key already queued is not pressed again and keeps its time. */
  lemma InputWhilePending(e: Engine, spec: KeySpec, now: real)
    requires Resolve(spec, e.shiftDown).0 in KeysOf(e.queue)
    ensures InputStep(e, spec, now).queue == e.queue
    ensures InputStep(e, spec, now).log == e.log
    ensures InputStep(e, spec, now).shiftDown == e.shiftDown
    ensures !InputStep(e, spec, now).noInput
  {
  }

  /**
   * A key not yet queued goes down exactly once: its down events are
   * appended to the log and it is queued last with time `now`.
   */
  lemma InputOfNewKey(e: Engine, spec: KeySpec, now: real)
    requires Resolve(spec, e.shiftDown).0 !in KeysOf(e.queue)
    ensures var (key, escape) := Resolve(spec, e.shiftDown);
      && InputStep(e, spec, now).queue == e.queue + [Pending(key, now)]
      && InputStep(e, spec, now).log == e.log + DownEvents(key, escape)
      && InputStep(e, spec, now).recent == e.recent
      && !InputStep(e, spec, now).noInput
  {
  }

  /** Input keeps one entry per key. */
  lemma InputKeepsDistinct(e: Engine, spec: KeySpec, now: real)
    requires Distinct(e.queue)
    ensures Distinct(InputStep(e, spec, now).queue)
  {
    var key := Resolve(spec, e.shiftDown).0;
    if key !in KeysOf(e.queue) {
      var q := e.queue + [Pending(key, now)];
      forall i, j | 0 <= i < j < |q| ensures q[i].key != q[j].key {
        if j == |q| - 1 {
          assert q[i].key == KeysOf(e.queue)[i];
        }
      }
    }
  }

  /**
   * `q2` is `q1` with entries appended, each observed at `now`: what the
   * inputs of one tick do to the queue.
   */
  predicate Grows(q1: seq<Pending>, q2: seq<Pending>, now: real)
  {
    |q1| <= |q2| && q2[..|q1|] == q1 && forall j :: |q1| <= j < |q2| ==> q2[j].observedAt == now
  }

  lemma GrowsRefl(q: seq<Pending>, now: real)
    ensures Grows(q, q, now)
  {
    assert q[..|q|] == q;
  }

  lemma GrowsTrans(q1: seq<Pending>, q2: seq<Pending>, q3: seq<Pending>, now: real)
    requires Grows(q1, q2, now) && Grows(q2, q3, now)
    ensures Grows(q1, q3, now)
  {
    assert q3[..|q1|] == q3[..|q2|][..|q1|];
    forall j | |q1| <= j < |q3| ensures q3[j].observedAt == now {
      if j < |q2| {
        assert q3[j] == q3[..|q2|][j];
      }
    }
  }

  /** Input appends at most one entry, observed at `now`, and keeps one entry per key. */
  lemma InputGrows(e: Engine, spec: KeySpec, now: real)
    requires Distinct(e.queue)
    ensures Grows(e.queue, InputStep(e, spec, now).queue, now)
    ensures Distinct(InputStep(e, spec, now).queue)
    ensures |InputStep(e, spec, now).queue| <= |e.queue| + 1
  {
    InputKeepsDistinct(e, spec, now);
    var key := Resolve(spec, e.shiftDown).0;
    if key in KeysOf(e.queue) {
      GrowsRefl(e.queue, now);
    } else {
      assert (e.queue + [Pending(key, now)])[..|e.queue|] == e.queue;
    }
  }

  /**
   * A second observation of a key that resolves the same way changes
   * nothing: no second key_down, and the first time stays.
   */
  lemma SecondInputChangesNothing(e: Engine, spec1: KeySpec, t1: real, spec2: KeySpec, t2: real)
    requires Resolve(spec2, InputStep(e, spec1, t1).shiftDown).0 == Resolve(spec1, e.shiftDown).0
    ensures InputStep(InputStep(e, spec1, t1), spec2, t2) == InputStep(e, spec1, t1)
  {
    var key := Resolve(spec1, e.shiftDown).0;
    var e1 := InputStep(e, spec1, t1);
    if key !in KeysOf(e.queue) {
      assert e1.queue[|e1.queue| - 1].key == key;
      assert KeysOf(e1.queue)[|e1.queue| - 1] == key;
    }
  }

  // ---------------------------------------------------------------------
  // Check: the pass over the queue.

  lemma {:induction false} PassShape(q: seq<Pending>, recent: Option<Key>, noInput: bool, delay: real, shortDelay: real, now: real)
    ensures var s := Pass(q, recent, noInput, delay, shortDelay, now);
      && |s.kept| + |s.released| == |q|
      && (forall x :: x in s.kept ==> x in q)
      && (forall k :: k in s.released ==> k in KeysOf(q))
      && s.recent == if s.released == [] then recent else Some(s.released[|s.released| - 1])
    decreases |q|
  {
    if q != [] {
      var q' := q[..|q| - 1];
      PassShape(q', recent, noInput, delay, shortDelay, now);
      var s' := Pass(q', recent, noInput, delay, shortDelay, now);
      forall k | k in s'.released ensures k in KeysOf(q) {
        var i :| 0 <= i < |q'| && KeysOf(q')[i] == k;
        assert KeysOf(q)[i] == k;
      }
      assert KeysOf(q)[|q| - 1] == q[|q| - 1].key;
    }
  }

  /** The pass over the first i + 1 entries extends the pass over the first i. */
  lemma PassExtend(q: seq<Pending>, i: nat, recent: Option<Key>, noInput: bool, delay: real, shortDelay: real, now: real)
    requires i < |q|
    ensures Pass(q[..i + 1], recent, noInput, delay, shortDelay, now) ==
      var s := Pass(q[..i], recent, noInput, delay, shortDelay, now);
      if Expires(q[i], s.recent, noInput, delay, shortDelay, now)
      then PassResult(s.kept, Some(q[i].key), s.released + [q[i].key])
      else PassResult(s.kept + [q[i]], s.recent, s.released)
  {
    assert q[..i + 1][..i] == q[..i];
  }

  /** `recent_release` as the pass finds it when it reaches entry `i`. */
  function RecentAt(q: seq<Pending>, i: nat, recent: Option<Key>, noInput: bool, delay: real, shortDelay: real, now: real): Option<Key>
    requires i <= |q|
  {
    Pass(q[..i], recent, noInput, delay, shortDelay, now).recent
  }

  /**
   * The expiry rule: entry `i` is released (and not kept) exactly when its
   * time plus its dwell, judged against `recent_release` as the earlier
   * entries left it, lies strictly before `now`; otherwise it is kept
   * unchanged (and not released).
   */
  lemma {:induction false} PassEntry(q: seq<Pending>, i: nat, recent: Option<Key>, noInput: bool, delay: real, shortDelay: real, now: real)
    requires Distinct(q) && i < |q|
    ensures var s := Pass(q, recent, noInput, delay, shortDelay, now);
      var at := RecentAt(q, i, recent, noInput, delay, shortDelay, now);
      if Expires(q[i], at, noInput, delay, shortDelay, now)
      then q[i].key in s.released && q[i] !in s.kept
      else q[i] in s.kept && q[i].key !in s.released
    decreases |q|
  {
    var q' := q[..|q| - 1];
    assert q[..|q|][..i] == q[..i];
    assert q == q' + [q[|q| - 1]];
    if i < |q| - 1 {
      assert q'[..i] == q[..i];
      PassEntry(q', i, recent, noInput, delay, shortDelay, now);
      PassShape(q', recent, noInput, delay, shortDelay, now);
      var s' := Pass(q', recent, noInput, delay, shortDelay, now);
      var p := q[|q| - 1];
      assert p.key != q[i].key;
    } else {
      PassShape(q', recent, noInput, delay, shortDelay, now);
    }
  }

  /**
   * An entry is judged against the short delay exactly when it is the key
   * released before the pass began and no earlier entry of the same pass
   * was released: a release earlier in the pass overwrites
   * `recent_release` for the entries after it.
   */
  lemma ShortDelayAt(q: seq<Pending>, i: nat, recent: Option<Key>, noInput: bool, delay: real, shortDelay: real, now: real)
    requires Distinct(q) && i < |q|
    ensures RecentAt(q, i, recent, noInput, delay, shortDelay, now) == Some(q[i].key) <==>
      recent == Some(q[i].key) && Pass(q[..i], recent, noInput, delay, shortDelay, now).released == []
  {
    var s := Pass(q[..i], recent, noInput, delay, shortDelay, now);
    PassShape(q[..i], recent, noInput, delay, shortDelay, now);
    if s.released != [] {
      var k := s.released[|s.released| - 1];
      assert k in s.released;
    }
  }

  /** The pass keeps one entry per key and releases each key at most once. */
  lemma {:induction false} PassDistinct(q: seq<Pending>, recent: Option<Key>, noInput: bool, delay: real, shortDelay: real, now: real)
    requires Distinct(q)
    ensures Distinct(Pass(q, recent, noInput, delay, shortDelay, now).kept)
    ensures NoDuplicates(Pass(q, recent, noInput, delay, shortDelay, now).released)
    decreases |q|
  {
    if q != [] {
      var q' := q[..|q| - 1];
      var p := q[|q| - 1];
      PassDistinct(q', recent, noInput, delay, shortDelay, now);
      PassShape(q', recent, noInput, delay, shortDelay, now);
      var s' := Pass(q', recent, noInput, delay, shortDelay, now);
      forall x | x in s'.kept ensures x.key != p.key {
        var j :| 0 <= j < |q'| && q'[j] == x;
        assert q[j] == x;
      }
      forall k | k in s'.released ensures k != p.key {
        var j :| 0 <= j < |q'| && KeysOf(q')[j] == k;
        assert q[j].key == k;
      }
      var s := Pass(q, recent, noInput, delay, shortDelay, now);
      forall i, j | 0 <= i < j < |s.kept| ensures s.kept[i].key != s.kept[j].key {
        if j == |s'.kept| {
          assert s.kept[i] in s'.kept;
        }
      }
      forall i, j | 0 <= i < j < |s.released| ensures s.released[i] != s.released[j] {
        if j == |s'.released| {
          assert s.released[i] in s'.released;
        }
      }
    }
  }

  /**
   * However `recent_release` and `no_input_registered` stand, an entry
   * older than both delays by the time of the check is released, and one
   * younger than half the delay and the short delay is kept.
   */
  lemma PassBounds(q: seq<Pending>, i: nat, recent: Option<Key>, noInput: bool, delay: real, shortDelay: real, now: real)
    requires Distinct(q) && i < |q| && delay >= 0.0
    ensures q[i].observedAt + delay < now && q[i].observedAt + shortDelay < now ==>
      q[i].key in Pass(q, recent, noInput, delay, shortDelay, now).released
    ensures now <= q[i].observedAt + delay / 2.0 && now <= q[i].observedAt + shortDelay ==>
      q[i] in Pass(q, recent, noInput, delay, shortDelay, now).kept
  {
    PassEntry(q, i, recent, noInput, delay, shortDelay, now);
  }

  lemma {:induction false} UpAllConcat(a: seq<Key>, k: Key)
    ensures UpAll(a + [k]) == UpAll(a) + UpEvents(k)
  {
    assert (a + [k])[..|a + [k]| - 1] == a;
  }

  /** Check keeps one entry per key. */
  lemma CheckKeepsDistinct(e: Engine, delay: real, shortDelay: real, now: real)
    requires Distinct(e.queue)
    ensures Distinct(CheckStep(e, delay, shortDelay, now).queue)
  {
    PassDistinct(e.queue, e.recent, e.noInput, delay, shortDelay, now);
  }

  // ---------------------------------------------------------------------
  // Scenarios.

  /** The pass over a one-entry queue. */
  lemma PassSingle(p: Pending, recent: Option<Key>, noInput: bool, delay: real, shortDelay: real, now: real)
    ensures Pass([p], recent, noInput, delay, shortDelay, now) ==
      if Expires(p, recent, noInput, delay, shortDelay, now)
      then PassResult([], Some(p.key), [p.key])
      else PassResult([p], recent, [])
  {
    assert [p][..0] == [];
  }

  /**
   * One press, one release: a key observed once at time t on an idle
   * engine goes down once; a check after t + delay releases it once and
   * remembers it as the recent release; an earlier check changes nothing.
   */
  lemma OnePressOneRelease(e: Engine, key: Key, t: real, delay: real, shortDelay: real, now: real)
    requires e.queue == [] && e.recent == None
    ensures var e1 := InputStep(e, Fixed(key), t);
      var e2 := CheckStep(e1, delay, shortDelay, now);
      && e1.log == e.log + DownEvents(key, false)
      && e1.queue == [Pending(key, t)]
      && (t + delay < now ==>
            e2.log == e1.log + UpEvents(key) && e2.queue == [] && e2.recent == Some(key))
      && (now <= t + delay ==> e2 == e1)
  {
    var e1 := InputStep(e, Fixed(key), t);
    assert e1 == Emit(e.(noInput := false, queue := [Pending(key, t)]), DownEvents(key, false)) by {
      assert key !in KeysOf(e.queue);
    }
    assert Expires(Pending(key, t), e1.recent, e1.noInput, delay, shortDelay, now) <==> t + delay < now;
    CheckOfOne(e1, delay, shortDelay, now);
  }

  /** `check` over a one-entry queue: the entry is released, or nothing changes. */
  lemma CheckOfOne(e: Engine, delay: real, shortDelay: real, now: real)
    requires |e.queue| == 1
    ensures var p := e.queue[0];
      Expires(p, e.recent, e.noInput, delay, shortDelay, now) ==>
        CheckStep(e, delay, shortDelay, now) ==
          Emit(e.(queue := [], recent := Some(p.key)), UpEvents(p.key))
    ensures !Expires(e.queue[0], e.recent, e.noInput, delay, shortDelay, now) ==>
      CheckStep(e, delay, shortDelay, now) == e
  {
    var p := e.queue[0];
    assert e.queue == [p];
    PassSingle(p, e.recent, e.noInput, delay, shortDelay, now);
    assert UpAll([p.key]) == UpEvents(p.key) by {
      UpAllConcat([], p.key);
      assert [] + [p.key] == [p.key];
    }
    assert e.log + [] == e.log;
  }

  /**
   * A key observed again soon after its own release expires by the short
   * delay: released before, observed again at 0.05, it is up by 0.145 with
   * a delay of 0.15 and a short delay of 0.09, where the delay alone would
   * keep it down until after 0.2.
   */
  lemma ShortDelayReuse(e: Engine, key: Key)
    requires e.queue == [] && e.recent == Some(key)
    ensures CheckStep(InputStep(e, Fixed(key), 0.05), 0.15, 0.09, 0.145).queue == []
    ensures CheckStep(InputStep(e.(recent := None), Fixed(key), 0.05), 0.15, 0.09, 0.145).queue != []
  {
    assert key !in KeysOf(e.queue);
    PassSingle(Pending(key, 0.05), Some(key), false, 0.15, 0.09, 0.145);
    PassSingle(Pending(key, 0.05), None, false, 0.15, 0.09, 0.145);
  }

  /**
   * After a tick with no input the dwell of a key that is not the recent
   * release is half the delay: with delay 0.15 a key observed at 0 is up
   * by 0.08, which the full delay would not allow.
   */
  lemma AbsenceHalvesDwell(e: Engine, key: Key)
    requires e.queue == [Pending(key, 0.0)] && e.recent != Some(key)
    ensures CheckStep(NoInputStep(e), 0.15, 0.09, 0.08).queue == []
    ensures CheckStep(e.(noInput := false), 0.15, 0.09, 0.08).queue == e.queue
  {
    PassSingle(Pending(key, 0.0), e.recent, true, 0.15, 0.09, 0.08);
    PassSingle(Pending(key, 0.0), e.recent, false, 0.15, 0.09, 0.08);
  }

  /**
   * After a no-input report, an entry that is not the recent release when
   * the pass reaches it goes up exactly when half the delay has passed.
   */
  lemma HalfDelayAfterAbsence(e: Engine, i: nat, delay: real, shortDelay: real, now: real)
    requires Distinct(e.queue) && i < |e.queue|
    requires RecentAt(e.queue, i, e.recent, true, delay, shortDelay, now) != Some(e.queue[i].key)
    ensures e.queue[i] in CheckStep(NoInputStep(e), delay, shortDelay, now).queue <==>
      now <= e.queue[i].observedAt + delay / 2.0
  {
    PassEntry(e.queue, i, e.recent, true, delay, shortDelay, now);
  }

  /**
   * Without a no-input report, such an entry goes up exactly when the full
   * delay has passed.
   */
  lemma FullDelayWithInput(e: Engine, i: nat, delay: real, shortDelay: real, now: real)
    requires Distinct(e.queue) && i < |e.queue| && !e.noInput
    requires RecentAt(e.queue, i, e.recent, false, delay, shortDelay, now) != Some(e.queue[i].key)
    ensures e.queue[i] in CheckStep(e, delay, shortDelay, now).queue <==>
      now <= e.queue[i].observedAt + delay
  {
    PassEntry(e.queue, i, e.recent, false, delay, shortDelay, now);
  }

  /**
   * An entry for the key released most recently, reached before anything
   * else in the pass is released, goes up exactly when the short delay has
   * passed, whatever the no-input flag.
   */
  lemma ShortDelayForRecent(e: Engine, i: nat, delay: real, shortDelay: real, now: real)
    requires Distinct(e.queue) && i < |e.queue| && e.recent == Some(e.queue[i].key)
    requires Pass(e.queue[..i], e.recent, e.noInput, delay, shortDelay, now).released == []
    ensures e.queue[i] in CheckStep(e, delay, shortDelay, now).queue <==>
      now <= e.queue[i].observedAt + shortDelay
  {
    ShortDelayAt(e.queue, i, e.recent, e.noInput, delay, shortDelay, now);
    PassEntry(e.queue, i, e.recent, e.noInput, delay, shortDelay, now);
  }

  /**
   * The `AltShift(SIX, Shifted(SEVEN))` key at row 3, column 4, observed
   * while shift is held: shift is released, the shifted SEVEN is pressed
   * as a self-contained triple, shift is pressed again, and shift is down
   * afterwards as it was before.
   */
  lemma EscapeIsTransparent(e: Engine, now: real)
    requires e.shiftDown && e.queue == []
    ensures Lookup(3, 4) == Some(AltShift(Plain(SIX), Shifted(SEVEN)))
    ensures InputStep(e, AltShift(Plain(SIX), Shifted(SEVEN)), now).log ==
      e.log + [Release(SHIFT), Press(SHIFT), Press(SEVEN), Release(SHIFT), Press(SHIFT)]
    ensures InputStep(e, AltShift(Plain(SIX), Shifted(SEVEN)), now).shiftDown
  {
    var spec := AltShift(Plain(SIX), Shifted(SEVEN));
    var events := [Release(SHIFT), Press(SHIFT), Press(SEVEN), Release(SHIFT), Press(SHIFT)];
    assert Resolve(spec, e.shiftDown) == (Shifted(SEVEN), true);
    assert DownEvents(Shifted(SEVEN), true) == events;
    assert InputStep(e, spec, now) ==
      Emit(e.(noInput := false, queue := [Pending(Shifted(SEVEN), now)]), events) by {
      assert Shifted(SEVEN) !in KeysOf(e.queue);
    }
    DownEventsShift(true, Shifted(SEVEN), true);
  }

  // ---------------------------------------------------------------------
  // The engine as the source keeps it: fields updated in place.

  /** `DebounceInput`, driving the sink `hid`. */
  class DebounceInput {
    const hid: HidKeyboard
    const delay: real
    const shortDelay: real
    var queue: seq<Pending>
    var recentRelease: Option<Key>
    var noInputRegistered: bool

    ghost predicate Valid()
      reads this, hid
    {
      hid.Valid() && Distinct(queue)
    }

    /** The abstract engine this object and its sink stand for. */
    ghost function State(): Engine
      reads this, hid
    {
      Engine(queue, recentRelease, noInputRegistered, hid.shiftDown, hid.log)
    }

    constructor (hid: HidKeyboard, delay: real := 0.15, shortDelay: real := 0.09)
      requires hid.Valid()
      ensures Valid() && this.hid == hid
      ensures this.delay == delay && this.shortDelay == shortDelay
      ensures queue == [] && recentRelease == None && !noInputRegistered
    {
      this.hid := hid;
      this.delay := delay;
      this.shortDelay := shortDelay;
      queue := [];
      recentRelease := None;
      noInputRegistered := false;
    }

    /**
     * `input(value, shift)` at time `now`. The `shift` flag only selects a
     * diagnostic message for the break key, so it changes nothing here.
     */
    method Input(spec: KeySpec, shift: bool := false, now: real)
      requires Valid()
      modifies this, hid
      ensures Valid()
      ensures State() == InputStep(old(State()), spec, now)
    {
      ghost var e := State();
      noInputRegistered := false;
      var key: Key;
      var escape := false;
      match spec {
        case Fixed(k) =>
          key := k;
        case AltShift(k, alt) =>
          if hid.shiftDown {
            key := alt;
            escape := true;
          } else {
            key := k;
          }
      }
      if key !in KeysOf(queue) {
        KeyDown(key, escape);
        queue := queue + [Pending(key, now)];
      }
      InputKeepsDistinct(e, spec, now);
    }

    /** `no_input()`. */
    method NoInput()
      requires Valid()
      modifies this
      ensures Valid()
      ensures State() == NoInputStep(old(State()))
    {
      noInputRegistered := true;
    }

    /**
     * `check()` at time `now`: a pass over the entries queued when the pass
     * begins, in their order; an expired entry is released, becomes
     * `recent_release` and is deleted from the queue.
     */
    method Check(now: real)
      requires Valid()
      modifies this, hid
      ensures Valid()
      ensures State() == CheckStep(old(State()), delay, shortDelay, now)
    {
      var snapshot := queue;
      ghost var recent0, log0, shift0 := recentRelease, hid.log, hid.shiftDown;
      ghost var kept: seq<Pending> := [];
      ghost var released: seq<Key> := [];
      var i := 0;
      assert snapshot[0..] == snapshot;
      while i < |snapshot|
        invariant 0 <= i <= |snapshot|
        invariant hid.Valid() && noInputRegistered == old(noInputRegistered)
        invariant Pass(snapshot[..i], recent0, noInputRegistered, delay, shortDelay, now) ==
          PassResult(kept, recentRelease, released)
        invariant queue == kept + snapshot[i..]
        invariant hid.log == log0 + UpAll(released)
        invariant hid.shiftDown == ShiftAfter(shift0, UpAll(released))
      {
        CheckLoopStep(snapshot, i, recent0, noInputRegistered, delay, shortDelay, now, kept, recentRelease, released);
        CheckLoopQueue(snapshot, i, recent0, noInputRegistered, delay, shortDelay, now, kept, released);
        ghost var expires := Expires(snapshot[i], recentRelease, noInputRegistered, delay, shortDelay, now);
        Visit(snapshot[i], now);
        if expires {
          ghost var up := UpEvents(snapshot[i].key);
          assert hid.log == log0 + UpAll(released + [snapshot[i].key]) by {
            assert hid.log == (log0 + UpAll(released)) + up;
            AppendAssoc(log0, UpAll(released), up);
          }
          ShiftAfterConcat(shift0, UpAll(released), up);
          released := released + [snapshot[i].key];
        } else {
          kept := kept + [snapshot[i]];
        }
        i := i + 1;
      }
      assert snapshot[..|snapshot|] == snapshot;
      PassDistinct(snapshot, recent0, noInputRegistered, delay, shortDelay, now);
    }

    /**
     * The body of the loop of `check` for one entry `p` of the snapshot:
     * its dwell, and if it has expired its key_up, `recent_release` and
     * its deletion from the queue.
     */
    method Visit(p: Pending, now: real)
      requires hid.Valid()
      modifies this, hid
      ensures hid.Valid() && noInputRegistered == old(noInputRegistered)
      ensures Expires(p, old(recentRelease), noInputRegistered, delay, shortDelay, now) ==>
        && queue == RemoveKey(old(queue), p.key) && recentRelease == Some(p.key)
        && hid.log == old(hid.log) + UpEvents(p.key)
        && hid.shiftDown == ShiftAfter(old(hid.shiftDown), UpEvents(p.key))
      ensures !Expires(p, old(recentRelease), noInputRegistered, delay, shortDelay, now) ==>
        && queue == old(queue) && recentRelease == old(recentRelease)
        && hid.log == old(hid.log) && hid.shiftDown == old(hid.shiftDown)
    {
      var k, v := p.key, p.observedAt;
      var d := if noInputRegistered then delay / 2.0 else delay;
      if Some(k) == recentRelease {
        d := shortDelay;
      }
      if v + d < now {
        KeyUp(k);
        recentRelease := Some(k);
        queue := RemoveKey(queue, k);
      }
    }

    /** `key_down(value, shift_escape)`. */
    method KeyDown(key: Key, escape: bool)
      requires hid.Valid()
      modifies hid
      ensures hid.Valid()
      ensures hid.log == old(hid.log) + DownEvents(key, escape)
      ensures hid.shiftDown == ShiftAfter(old(hid.shiftDown), DownEvents(key, escape))
    {
      ghost var log0 := hid.log;
      ghost var press := DownEvents(key, false);
      if escape {
        hid.KeyRelease(SHIFT);
      }
      ghost var log1 := hid.log;
      match key {
        case Shifted(c) =>
          hid.KeyPress(SHIFT);
          hid.KeyPress(c);
          hid.KeyRelease(SHIFT);
          assert hid.log == log1 + press by {
            AppendAssoc(log1 + [Press(SHIFT)], [Press(c)], [Release(SHIFT)]);
            AppendAssoc(log1, [Press(SHIFT)], [Press(c), Release(SHIFT)]);
          }
        case Plain(c) =>
          hid.KeyPress(c);
      }
      if escape {
        hid.KeyPress(SHIFT);
        assert hid.log == log0 + DownEvents(key, escape) by {
          AppendAssoc(log0, [Release(SHIFT)], press);
          AppendAssoc(log0, [Release(SHIFT)] + press, [Press(SHIFT)]);
        }
      }
      ShiftAfterConcat(false, log0, DownEvents(key, escape));
    }

    /** `key_up(value)`. */
    method KeyUp(key: Key)
      requires hid.Valid()
      modifies hid
      ensures hid.Valid()
      ensures hid.log == old(hid.log) + UpEvents(key)
      ensures hid.shiftDown == ShiftAfter(old(hid.shiftDown), UpEvents(key))
    {
      match key {
        case Shifted(c) =>
          hid.KeyRelease(SHIFT);
          hid.KeyRelease(c);
        case Plain(c) =>
          hid.KeyRelease(c);
      }
      assert hid.log == old(hid.log) + UpEvents(key);
      ShiftAfterConcat(false, old(hid.log), UpEvents(key));
    }
  }

  /**
   * One iteration of the loop of `check`: how the pass grows when entry
   * `i` of the snapshot is visited ...
   */
  lemma CheckLoopStep(snapshot: seq<Pending>, i: nat, recent0: Option<Key>, noInput: bool, delay: real,
                      shortDelay: real, now: real, kept: seq<Pending>, recent: Option<Key>, released: seq<Key>)
    requires Distinct(snapshot) && i < |snapshot|
    requires Pass(snapshot[..i], recent0, noInput, delay, shortDelay, now) == PassResult(kept, recent, released)
    ensures var p := snapshot[i];
      Pass(snapshot[..i + 1], recent0, noInput, delay, shortDelay, now) ==
        if Expires(p, recent, noInput, delay, shortDelay, now)
        then PassResult(kept, Some(p.key), released + [p.key])
        else PassResult(kept + [p], recent, released)
  {
    PassExtend(snapshot, i, recent0, noInput, delay, shortDelay, now);
  }

  /**
   * ... and how the queue and the release events do: deleting the visited
   * key leaves what was kept and the rest of the snapshot.
   */
  lemma CheckLoopQueue(snapshot: seq<Pending>, i: nat, recent0: Option<Key>, noInput: bool, delay: real,
                       shortDelay: real, now: real, kept: seq<Pending>, released: seq<Key>)
    requires Distinct(snapshot) && i < |snapshot|
    requires Pass(snapshot[..i], recent0, noInput, delay, shortDelay, now).kept == kept
    ensures RemoveKey(kept + snapshot[i..], snapshot[i].key) == kept + snapshot[i + 1..]
    ensures kept + snapshot[i..] == (kept + [snapshot[i]]) + snapshot[i + 1..]
    ensures UpAll(released + [snapshot[i].key]) == UpAll(released) + UpEvents(snapshot[i].key)
  {
    var p := snapshot[i];
    assert RemoveKey(kept + snapshot[i..], snapshot[i].key) == kept + snapshot[i + 1..] by {
      PassShape(snapshot[..i], recent0, noInput, delay, shortDelay, now);
      RemoveFromMiddle(kept, snapshot, i);
    }
    assert kept + snapshot[i..] == (kept + [snapshot[i]]) + snapshot[i + 1..] by {
      assert snapshot[i..] == [snapshot[i]] + snapshot[i + 1..];
    }
    assert UpAll(released + [p.key]) == UpAll(released) + UpEvents(p.key) by {
      UpAllConcat(released, p.key);
    }
  }

  lemma AppendAssoc<T>(a: seq<T>, b: seq<T>, c: seq<T>)
    ensures (a + b) + c == a + (b + c)
  {
  }

  /** `del queue[key]`: the queue without the entry for `key`. */
  function RemoveKey(q: seq<Pending>, key: Key): (r: seq<Pending>)
    ensures forall x :: x in r <==> x in q && x.key != key
  {
    if q == [] then []
    else if q[0].key == key then RemoveKey(q[1..], key)
    else [q[0]] + RemoveKey(q[1..], key)
  }

  lemma {:induction false} RemoveAbsent(q: seq<Pending>, key: Key)
    requires forall x :: x in q ==> x.key != key
    ensures RemoveKey(q, key) == q
  {
    if q != [] {
      RemoveAbsent(q[1..], key);
    }
  }

  lemma {:induction false} RemoveFromFront(a: seq<Pending>, p: Pending, b: seq<Pending>)
    requires forall x :: x in a ==> x.key != p.key
    requires forall x :: x in b ==> x.key != p.key
    ensures RemoveKey(a + [p] + b, p.key) == a + b
  {
    if a == [] {
      assert [p] + b == a + [p] + b;
      RemoveAbsent(b, p.key);
    } else {
      assert (a + [p] + b)[1..] == a[1..] + [p] + b;
      RemoveFromFront(a[1..], p, b);
      assert a == [a[0]] + a[1..];
    }
  }

  /**
   * Deleting entry `i` of a distinct queue from the queue the pass has made
   * of it so far: what was kept of the earlier entries, entry `i`, and the
   * entries after it.
   */
  lemma RemoveFromMiddle(kept: seq<Pending>, q: seq<Pending>, i: nat)
    requires Distinct(q) && i < |q|
    requires forall x :: x in kept ==> x in q[..i]
    ensures RemoveKey(kept + q[i..], q[i].key) == kept + q[i + 1..]
  {
    var p, rest := q[i], q[i + 1..];
    assert q[i..] == [p] + rest;
    assert kept + q[i..] == kept + [p] + rest;
    forall x | x in kept ensures x.key != p.key {
      var j :| 0 <= j < i && q[..i][j] == x;
      assert q[j] == x;
    }
    forall x | x in rest ensures x.key != p.key {
      var j :| 0 <= j < |rest| && rest[j] == x;
      assert q[i + 1 + j] == x;
    }
    RemoveFromFront(kept, p, rest);
  }
}
