/**
  The stored documents and timers of one room as the services reach them: one command at a time, each of which may
  fail.
 */
module RoomStore {
  import opened Names
  import opened RoomModel
  import opened RoomInvariants
  import opened RoomRuns
  import opened RoomMachine
  import opened RoomTimerProtocol

  /**
    What becomes of a command: it is executed and answered, it is executed and its reply is lost, or it is lost. A write
    that the lease check stops or the fence refuses is a lost one.
   */
  datatype Fate = Answered | ReplyLost | CommandLost

  function PartWorld(w: World, stage: Stage, landed: seq<Landing>): World
    requires |landed| == |stage|
  {
    World(RunPart(w.data, stage, landed), PartTimers(w.timers, stage, landed))
  }

  function StageTimers(timers: map<TimerKind, int>, stage: Stage): map<TimerKind, int>
    decreases stage
  {
    if stage == [] then timers else StageTimers(ExecTimers(timers, stage[0]), stage[1..])
  }

  function StageWorld(w: World, stage: Stage): World {
    World(RunStage(w.data, stage), StageTimers(w.timers, stage))
  }

  /** The stages lead from `w` to `w'`, documents and timers alike: complete, or until a failure. */
  ghost predicate Carried(w: World, stages: seq<Stage>, w': World, complete: bool)
    decreases stages
  {
    if stages == [] then
      w' == w
    else
      || (!complete && exists landed: seq<Landing> :: |landed| == |stages[0]| && w' == PartWorld(w, stages[0], landed))
      || Carried(StageWorld(w, stages[0]), stages[1..], w', complete)
  }

  /** The documents of what was carried out make a step of the room. */
  lemma {:induction false} CarriedIsRan(w: World, stages: seq<Stage>, w': World, complete: bool)
    requires Carried(w, stages, w', complete)
    ensures Ran(w.data, stages, w'.data, complete)
    decreases stages
  {
    if stages != [] && Carried(StageWorld(w, stages[0]), stages[1..], w', complete) {
      CarriedIsRan(StageWorld(w, stages[0]), stages[1..], w', complete);
    }
  }

  lemma {:induction false} CarriedOn(w: World, a: seq<Stage>, w1: World, b: seq<Stage>, w2: World, complete: bool)
    requires Carried(w, a, w1, true) && Carried(w1, b, w2, complete)
    ensures Carried(w, a + b, w2, complete)
    decreases a
  {
    if a == [] {
      assert a + b == b;
    } else {
      CarriedOn(StageWorld(w, a[0]), a[1..], w1, b, w2, complete);
      assert (a + b)[0] == a[0] && (a + b)[1..] == a[1..] + b;
    }
  }

  lemma NothingCarried(w: World, stages: seq<Stage>)
    ensures Carried(w, stages, w, false)
  {
    if stages != [] {
      var landed := seq(|stages[0]|, _ => Missed);
      NothingLandsIn(w, stages[0], landed);
      assert w == PartWorld(w, stages[0], landed);
    }
  }

  lemma {:induction false} NothingLandsIn(w: World, stage: Stage, landed: seq<Landing>)
    requires |landed| == |stage| && forall i :: 0 <= i < |landed| ==> landed[i].Missed?
    ensures PartWorld(w, stage, landed) == w
    decreases stage
  {
    if stage != [] {
      NothingLandsIn(w, stage[1..], landed[1..]);
    }
  }

  /** A failure in the first part is a failure of the whole. */
  lemma {:induction false} CarriedUntil(w: World, a: seq<Stage>, w1: World, b: seq<Stage>)
    requires Carried(w, a, w1, false)
    ensures Carried(w, a + b, w1, false)
    decreases a
  {
    if a == [] {
      NothingCarried(w, b);
      assert a + b == b;
    } else {
      assert (a + b)[0] == a[0] && (a + b)[1..] == a[1..] + b;
      if Carried(StageWorld(w, a[0]), a[1..], w1, false) {
        CarriedUntil(StageWorld(w, a[0]), a[1..], w1, b);
      }
    }
  }

  lemma OneCarried(w: World, e: Effect, landed: Landing, complete: bool)
    requires complete ==> landed.Landed?
    ensures Carried(w, [[e]], if landed.Landed? then Exec(w, e) else w, complete)
  {
    var stage, stages: seq<Stage> := [e], [[e]];
    assert stage[1..] == [] && stages[1..] == [];
    OneWriteStage(w.data, e);
    assert StageTimers(w.timers, stage) == ExecTimers(w.timers, e);
    assert StageWorld(w, stage) == Exec(w, e);
    assert PartTimers(w.timers, stage, [landed]) == if landed.Landed? then ExecTimers(w.timers, e) else w.timers;
    assert PartWorld(w, stage, [landed]) == if landed.Landed? then Exec(w, e) else w;
    assert |[landed]| == |stages[0]|;
    if complete {
      assert Carried(StageWorld(w, stages[0]), stages[1..], Exec(w, e), complete);
    }
  }

  /** One more write at the end of a stage. */
  lemma {:induction false} PartExtended(w: World, stage: Stage, landed: seq<Landing>, e: Effect, last: Landing)
    requires |landed| == |stage|
    ensures PartWorld(w, stage + [e], landed + [last])
         == if last.Landed? then Exec(PartWorld(w, stage, landed), e) else PartWorld(w, stage, landed)
    decreases stage
  {
    var longer, more := stage + [e], landed + [last];
    if stage == [] {
      assert longer == [e] && more == [last] && longer[1..] == [] && more[1..] == [];
      OneWriteStage(w.data, e);
      assert RunPart(w.data, longer, more) == if last.Landed? then ExecData(w.data, e) else w.data;
      assert PartTimers(w.timers, longer, more) == if last.Landed? then ExecTimers(w.timers, e) else w.timers;
    } else {
      var w1 := if landed[0].Landed? then Exec(w, stage[0]) else w;
      PartExtended(w1, stage[1..], landed[1..], e, last);
      assert longer[1..] == stage[1..] + [e] && more[1..] == landed[1..] + [last];
    }
  }

  lemma {:induction false} AllLanded(w: World, stage: Stage, landed: seq<Landing>)
    requires |landed| == |stage| && AllLand(landed)
    ensures PartWorld(w, stage, landed) == StageWorld(w, stage)
    decreases stage
  {
    if stage != [] {
      AllLanded(Exec(w, stage[0]), stage[1..], landed[1..]);
    }
  }

  lemma StageCarried(w: World, stage: Stage, landed: seq<Landing>, complete: bool)
    requires |landed| == |stage| && (complete ==> AllLand(landed))
    ensures Carried(w, [stage], PartWorld(w, stage, landed), complete)
  {
    var stages: seq<Stage> := [stage];
    assert stages[0] == stage && stages[1..] == [];
    if complete {
      AllLanded(w, stage, landed);
      assert Carried(StageWorld(w, stage), stages[1..], PartWorld(w, stage, landed), complete);
    }
  }

  class RoomStore {
    var room: Option<Room>
    var songOrder: Option<seq<SongId>>
    var snapshot: Option<map<SongId, RoundData>>
    var answers: Option<seq<string>>
    var titles: Option<Reveal>
    var timers: map<TimerKind, int>
    /** How many commands were issued, and how many of them failed. */
    var issued: nat
    ghost var failures: nat
    /** What becomes of the n-th command. */
    const fates: nat -> Fate
    /** How often the room record was read, and whether the n-th of these reads is answered. */
    var loads: nat
    const answered: nat -> bool

    ghost function Documents(): Data
      reads this
    {
      Data(room, songOrder, snapshot, answers, titles)
    }

    ghost function Contents(): World
      reads this
    {
      World(Documents(), timers)
    }

    /** The next read of the room record fails, or is not sent because there is no connection. */
    predicate ReadFails()
      reads this
    {
      !answered(loads)
    }

    constructor (fates: nat -> Fate, answered: nat -> bool)
      ensures Contents() == World(Data(None, None, None, None, None), map[]) && failures == 0
      ensures this.fates == fates && this.answered == answered
    {
      room, songOrder, snapshot, answers, titles, timers := None, None, None, None, None, map[];
      issued, failures, loads := 0, 0, 0;
      this.fates, this.answered := fates, answered;
    }

    /** `getRoomRecord`: a read that fails falls back to local memory, which holds no room. */
    method GetRoomRecord() returns (record: Option<Room>)
      modifies this`loads
      ensures record == if old(ReadFails()) then None else room
      ensures Contents() == old(Contents()) && loads == old(loads) + 1
    {
      record := if answered(loads) then room else None;
      loads := loads + 1;
    }

    /** A strict read of any other document: it fails like a command that is not answered. */
    method ReadStrictly() returns (ok: bool)
      modifies this`issued, this`failures
      ensures Contents() == old(Contents())
      ensures failures == old(failures) + if ok then 0 else 1
    {
      ok := fates(issued).Answered?;
      issued := issued + 1;
      if !ok {
        failures := failures + 1;
      }
    }

    /** The server executes one write. */
    method Execute(e: Effect)
      modifies this
      ensures Contents() == Exec(old(Contents()), e)
      ensures issued == old(issued) && failures == old(failures)
    {
      match e
      case SaveRoom(x) => room := Some(x);
      case DeleteRoom => room := None;
      case SetSongOrder(x) => songOrder := Some(x);
      case SetSnapshot(x) => snapshot := Some(x);
      case SetAnswers(x) => answers := Some(x);
      case SetReveal(x) => titles := Some(x);
      case DelSongOrder => songOrder := None;
      case DelSnapshot => snapshot := None;
      case DelAnswers => answers := None;
      case DelReveal => titles := None;
      case ScheduleTimer(kind, at) => timers := timers[kind := at];
      case CancelTimer(kind) => timers := timers - {kind};
    }

    /** Issue a write and wait for its reply. Whether it took effect is known only if it is answered. */
    method Issue(e: Effect) returns (ok: bool, ghost landed: Landing)
      modifies this
      ensures ok ==> landed.Landed?
      ensures Contents() == if landed.Landed? then Exec(old(Contents()), e) else old(Contents())
      ensures Carried(old(Contents()), [[e]], Contents(), ok)
      ensures failures == old(failures) + if ok then 0 else 1
    {
      var fate := fates(issued);
      issued := issued + 1;
      ghost var before := Contents();
      if !fate.CommandLost? {
        Execute(e);
      }
      if !fate.Answered? {
        failures := failures + 1;
      }
      landed := if fate.CommandLost? then Missed else Landed;
      OneCarried(before, e, landed, fate.Answered?);
      ok := fate.Answered?;
    }

    /** Issue the writes of a stage together and wait for all of them. */
    method IssueAll(stage: Stage) returns (ok: bool)
      modifies this
      ensures Carried(old(Contents()), [stage], Contents(), ok)
      ensures failures >= old(failures) && (ok <==> failures == old(failures))
    {
      ghost var before := Contents();
      ghost var all: seq<Landing> := [];
      ok := true;
      for i := 0 to |stage|
        invariant |all| == i && Contents() == PartWorld(before, stage[..i], all)
        invariant ok ==> AllLand(all)
        invariant failures >= old(failures) && (ok <==> failures == old(failures))
      {
        var answered, landed := Issue(stage[i]);
        PartExtended(before, stage[..i], all, stage[i], landed);
        assert stage[..i + 1] == stage[..i] + [stage[i]];
        all := all + [landed];
        ok := ok && answered;
      }
      assert stage[..|stage|] == stage;
      StageCarried(before, stage, all, ok);
    }

    /** A cancel that nobody waits for; the kinds in `lost` are lost without notice. */
    method CancelUnawaited(kind: TimerKind, lost: set<TimerKind>)
      modifies this
      ensures Carried(old(Contents()), TryCancel(kind, lost), Contents(), true)
      ensures timers == if kind in lost then old(timers) else old(timers) - {kind}
      ensures Documents() == old(Documents()) && failures == old(failures)
    {
      ghost var before := Contents();
      if kind !in lost {
        Execute(CancelTimer(kind));
        OneCarried(before, CancelTimer(kind), Landed, true);
      }
    }
  }
}
