/**
  A room and its game: the stored documents, the single writes that change them, and, for every request and timer,
  the writes it issues and in which order.
 */
module RoomModel {
  import opened Names
  import opened GameScoring
  import opened RoomTimerProtocol

  type UserId = nat
  type SongId = nat

  const ROUND_TIME_LIMIT_MS: int := 30_000
  const PLAY_SCHEDULE_DELAY_MS: int := 1_800
  const SPEED_MODE_NEXT_ROUND_DELAY_MS: int := 4_000
  const SPEED_MODE_REVEAL_DELAY_MS: int := 6_000
  const FORCE_SKIP_DELAY_MS: int := 3_000

  datatype Status = Waiting | Loading | Playing | RoundEnded | Finished

  datatype Participant = Participant(userId: UserId, score: nat)

  /** The titles that are kept secret until the round ends. */
  datatype Reveal = Reveal(quizSongId: SongId, songNm: string, atstNm: string, albmNm: string)

  /** One round of a quiz, as the quiz service delivers it. */
  datatype RoundData = RoundData(quizSongId: SongId, answers: seq<string>, songNm: string, atstNm: string,
    albmNm: string)
  {
    function Titles(): Reveal {
      Reveal(quizSongId, songNm, atstNm, albmNm)
    }
  }

  /**
    The public state of the current round. `title` holds the titles once they are public, and the times are optional.
   */
  datatype Round = Round(
    roundIndex: nat,
    totalRounds: nat,
    readyUserIds: seq<UserId>,
    correctUserIds: seq<UserId>,
    skipUserIds: seq<UserId>,
    forceSkipAt: Option<int>,
    autoRevealAt: Option<int>,
    autoNextRoundAt: Option<int>,
    playScheduledAt: Option<int>,
    revealed: bool,
    title: Option<Reveal>)

  datatype Room = Room(
    hostUserId: UserId,
    participants: seq<Participant>,
    curUserCnt: int,
    maxUserCnt: int,
    songLimit: nat,
    isRandom: bool,
    isPrivate: bool,
    speedModeEnabled: bool,
    gameStatus: Status,
    currentRound: Option<Round>)

  /** The documents stored for one room. */
  datatype Data = Data(
    room: Option<Room>,
    songOrder: Option<seq<SongId>>,
    snapshot: Option<map<SongId, RoundData>>,
    answers: Option<seq<string>>,
    titles: Option<Reveal>)

  /** The documents and the timers of one room. */
  datatype World = World(data: Data, timers: map<TimerKind, int>)

  /** A single write. */
  datatype Effect =
    | SaveRoom(room: Room)
    | DeleteRoom
    | SetSongOrder(songOrder: seq<SongId>)
    | SetSnapshot(snapshot: map<SongId, RoundData>)
    | SetAnswers(answers: seq<string>)
    | SetReveal(titles: Reveal)
    | DelSongOrder
    | DelSnapshot
    | DelAnswers
    | DelReveal
    | ScheduleTimer(kind: TimerKind, fireAt: int)
    | CancelTimer(kind: TimerKind)

  function ExecData(d: Data, e: Effect): Data {
    match e
    case SaveRoom(room) => d.(room := Some(room))
    case DeleteRoom => d.(room := None)
    case SetSongOrder(x) => d.(songOrder := Some(x))
    case SetSnapshot(x) => d.(snapshot := Some(x))
    case SetAnswers(x) => d.(answers := Some(x))
    case SetReveal(x) => d.(titles := Some(x))
    case DelSongOrder => d.(songOrder := None)
    case DelSnapshot => d.(snapshot := None)
    case DelAnswers => d.(answers := None)
    case DelReveal => d.(titles := None)
    case _ => d
  }

  function ExecTimers(timers: map<TimerKind, int>, e: Effect): map<TimerKind, int> {
    match e
    case ScheduleTimer(kind, at) => timers[kind := at]
    case CancelTimer(kind) => timers - {kind}
    case _ => timers
  }

  function Exec(w: World, e: Effect): World {
    World(ExecData(w.data, e), ExecTimers(w.timers, e))
  }

  /** Writes that are issued together and awaited together. */
  type Stage = seq<Effect>

  datatype Refusal = NotFound | Forbidden | Conflict | BadRequest | Unauthorized | Unavailable

  /** The stages a request goes through, and the exception it ends with, if any, when every write succeeds. */
  datatype Plan = Plan(stages: seq<Stage>, refusal: Option<Refusal>)

  function Refused(why: Refusal): Plan {
    Plan([], Some(why))
  }

  function Steps(stages: seq<Stage>): Plan {
    Plan(stages, None)
  }

  // ----- the parts the requests are made of

  predicate Takes(room: Room, u: UserId) {
    exists i :: 0 <= i < |room.participants| && room.participants[i].userId == u
  }

  /** `findIndex`; -1 when the user does not take part. */
  function IndexOf(ps: seq<Participant>, u: UserId): (i: int)
    ensures -1 <= i < |ps|
    ensures i >= 0 ==> ps[i].userId == u && forall k :: 0 <= k < i ==> ps[k].userId != u
    ensures i == -1 ==> forall k :: 0 <= k < |ps| ==> ps[k].userId != u
  {
    if ps == [] then -1
    else if ps[0].userId == u then 0
    else var i := IndexOf(ps[1..], u); if i == -1 then -1 else i + 1
  }

  /** Every participant is in the list. */
  predicate AllIn(ps: seq<Participant>, ids: seq<UserId>) {
    forall i :: 0 <= i < |ps| ==> ps[i].userId in ids
  }

  /** More than half as many users as there are participants asked for a skip; whoever is in the list counts. */
  predicate HasSkipMajority(room: Room): (majority: bool)
    ensures majority <==> room.currentRound.Some? && 2 * |room.currentRound.value.skipUserIds| > |room.participants|
  {
    room.currentRound.Some? && |room.currentRound.value.skipUserIds| >= |room.participants| / 2 + 1
  }

  function ZeroScores(ps: seq<Participant>): (zs: seq<Participant>)
    ensures |zs| == |ps| && forall i :: 0 <= i < |ps| ==> zs[i] == ps[i].(score := 0)
  {
    if ps == [] then [] else [ps[0].(score := 0)] + ZeroScores(ps[1..])
  }

  /** A cancel that is not awaited: the kinds in `lost` fail unnoticed. */
  function TryCancel(kind: TimerKind, lost: set<TimerKind>): seq<Stage> {
    if kind in lost then [] else [[CancelTimer(kind)]]
  }

  function CleanupStaleRoundTimers(room: Room, lost: set<TimerKind>): seq<Stage> {
    TryCancel(RoundTimeout, lost) + (if room.speedModeEnabled then TryCancel(SpeedReveal, lost) else [])
  }

  function ClearSpeedModeTimer(lost: set<TimerKind>): seq<Stage> {
    TryCancel(SpeedReveal, lost) + TryCancel(SpeedNext, lost)
  }

  /** The room in LOADING state for the round `index`, which nobody has answered or skipped yet. */
  function LoadingRoom(room: Room, index: nat, total: nat): Room {
    room.(gameStatus := Loading,
          currentRound := Some(Round(index, total, [], [], [], None, None, None, None, false, None)))
  }

  /** The documents of a game, deleted together. */
  function DeleteGame(): Stage {
    [DelSongOrder, DelSnapshot, DelAnswers, DelReveal]
  }

  /** The documents of a game, stored together before its first round. */
  function StoreGame(selected: seq<RoundData>): Stage {
    [SetSongOrder(SongIds(selected)), SetSnapshot(SnapshotOf(selected))]
  }

  /** Store the answers and then the titles of a round, and then the room that is loading it. */
  function RoundStages(data: RoundData, room: Room, index: nat, total: nat): seq<Stage> {
    [[SetAnswers(data.answers)], [SetReveal(data.Titles())], [SaveRoom(LoadingRoom(room, index, total))]]
  }

  /** All the writes of the start of a game with these rounds. */
  function GameStages(room: Room, selected: seq<RoundData>): seq<Stage>
    requires selected != []
  {
    [StoreGame(selected)] + RoundStages(SnapshotOf(selected)[selected[0].quizSongId], room, 0, |selected|)
  }

  /** Play as soon as everybody is ready: the timeout is scheduled before the room is saved. */
  function RecomputeReady(room: Room, now: int): (Room, seq<Stage>) {
    if room.currentRound.Some? && room.gameStatus.Loading?
      && AllIn(room.participants, room.currentRound.value.readyUserIds) then
      (room.(gameStatus := Playing,
             currentRound := Some(room.currentRound.value.(playScheduledAt := Some(now + PLAY_SCHEDULE_DELAY_MS)))),
       [[ScheduleTimer(RoundTimeout, now + ROUND_TIME_LIMIT_MS + PLAY_SCHEDULE_DELAY_MS)]])
    else
      (room, [])
  }

  /** The end of a round: the titles become public, and in speed mode the next round is scheduled. */
  function FinalizeRoundEnd(room: Room, titles: Option<Reveal>, now: int): (Room, seq<Stage>) {
    if room.currentRound.None? then
      (room, [])
    else
      var round := room.currentRound.value.(revealed := true, title := titles);
      if room.speedModeEnabled then
        (room.(gameStatus := RoundEnded,
               currentRound := Some(round.(autoNextRoundAt := Some(now + SPEED_MODE_NEXT_ROUND_DELAY_MS)))),
         [[ScheduleTimer(SpeedNext, now + SPEED_MODE_NEXT_ROUND_DELAY_MS)]])
      else
        (room.(gameStatus := RoundEnded, currentRound := Some(round)), [])
  }

  /** End the round, save, and only then clean up the timers that are stale now. */
  function EndRound(room: Room, titles: Option<Reveal>, now: int, lost: set<TimerKind>): Plan {
    var (ended, before) := FinalizeRoundEnd(room, titles, now);
    Steps(before + [[SaveRoom(ended)]] + CleanupStaleRoundTimers(ended, lost))
  }

  function SongIds(rounds: seq<RoundData>): (ids: seq<SongId>)
    ensures |ids| == |rounds| && forall i :: 0 <= i < |rounds| ==> ids[i] == rounds[i].quizSongId
  {
    if rounds == [] then [] else [rounds[0].quizSongId] + SongIds(rounds[1..])
  }

  /** Later rounds overwrite earlier ones of the same song. */
  function SnapshotOf(rounds: seq<RoundData>): (snapshot: map<SongId, RoundData>)
    ensures forall id :: id in snapshot <==> exists i :: 0 <= i < |rounds| && rounds[i].quizSongId == id
    ensures forall id :: id in snapshot ==> snapshot[id] in rounds && snapshot[id].quizSongId == id
  {
    if rounds == [] then map[]
    else
      var last := rounds[|rounds| - 1];
      var front := SnapshotOf(rounds[..|rounds| - 1]);
      front[last.quizSongId := last]
  }

  function Take(rounds: seq<RoundData>, n: nat): seq<RoundData> {
    if n <= |rounds| then rounds[..n] else rounds
  }

  /** Draw the song order, store order and snapshot together, store the first round, and save the room. */
  function StartGame(room: Room, rounds: Option<seq<RoundData>>, shuffled: seq<RoundData>): Plan {
    match rounds
    case None => Refused(Unavailable)
    case Some(all) =>
      if all == [] then
        Refused(NotFound)
      else
        var selected := Take(if room.isRandom then shuffled else all, room.songLimit);
        if selected == [] then Plan([StoreGame(selected)], Some(NotFound)) else Steps(GameStages(room, selected))
  }

  /** The next round of the stored order, or the end of the game when there is none. */
  function AdvanceToNextRound(d: Data, room: Room): Plan {
    var songOrder := if d.songOrder.Some? then d.songOrder.value else [];
    var snapshot := if d.snapshot.Some? then d.snapshot.value else map[];
    var next := if room.currentRound.Some? then room.currentRound.value.roundIndex + 1 else 0;
    if next >= |songOrder| then
      Steps([DeleteGame(), [SaveRoom(room.(gameStatus := Finished, currentRound := None))]])
    else if songOrder[next] !in snapshot then
      Refused(NotFound)
    else
      Steps(RoundStages(snapshot[songOrder[next]], room, next, |songOrder|))
  }

  // ----- the requests

  datatype Request =
    | Create(host: UserId, maxUserCnt: int, songLimit: nat, songCount: nat, isRandom: bool, isPrivate: bool,
             hasPassword: bool, speedModeEnabled: bool)
    | Join(userId: UserId, account: bool, passwordMatches: bool)
    | Leave(userId: UserId, now: int, lost: set<TimerKind>)
    | Update(requester: UserId, maxUserCnt: int, songLimit: nat, songCount: nat, isRandom: bool, isPrivate: bool,
             hasPassword: bool, speedModeEnabled: bool)
    | Start(requester: UserId, rounds: Option<seq<RoundData>>, shuffled: seq<RoundData>)
    | Restart(requester: UserId, rounds: Option<seq<RoundData>>, shuffled: seq<RoundData>)
    | MarkReady(userId: UserId, now: int)
    | Next(requester: UserId, lost: set<TimerKind>)
    | Submit(userId: UserId, message: string, now: int, lost: set<TimerKind>)
    | RequestSkip(userId: UserId, now: int, lost: set<TimerKind>)
    | ForceSkip(requester: UserId, now: int)
    | RoundTimeoutFired(now: int, lost: set<TimerKind>)
    | SpeedRevealFired(now: int, lost: set<TimerKind>)
    | SpeedNextFired

  /**
    What the caller's side guarantees: the limits the request validation enforces, fresh ids for guests and rooms,
    and that a shuffle is a permutation.
   */
  ghost predicate Admissible(d: Data, r: Request) {
    match r
    case Create(_, max, _, _, _, _, _, _) => d.room.None? && 2 <= max <= 50
    case Join(u, account, _) => !account && d.room.Some? ==> !Takes(d.room.value, u)
    case Update(_, max, _, _, _, _, _, _) => 2 <= max <= 50
    case Start(_, rounds, shuffled) => rounds.Some? ==> multiset(shuffled) == multiset(rounds.value)
    case Restart(_, rounds, shuffled) => rounds.Some? ==> multiset(shuffled) == multiset(rounds.value)
    case _ => true
  }

  function JoinPlan(room: Room, u: UserId, account: bool, passwordMatches: bool): Plan {
    if account && Takes(room, u) then Steps([])
    else if room.curUserCnt >= room.maxUserCnt then Refused(Conflict)
    else if room.isPrivate && !passwordMatches then Refused(Unauthorized)
    else
      var ps := room.participants + [Participant(u, 0)];
      Steps([[SaveRoom(room.(participants := ps, curUserCnt := |ps|))]])
  }

  function Forget(round: Round, u: UserId): Round {
    round.(readyUserIds := Without(round.readyUserIds, u),
           correctUserIds := Without(round.correctUserIds, u),
           skipUserIds := Without(round.skipUserIds, u))
  }

  /** The room after one participant, at index `i`, is gone and somebody is left. */
  function WithoutParticipant(room: Room, i: nat): Room
    requires i < |room.participants|
  {
    var u := room.participants[i].userId;
    var ps := room.participants[..i] + room.participants[i + 1..];
    room.(participants := ps,
          curUserCnt := |ps|,
          hostUserId := (if room.hostUserId == u && ps != [] then ps[0].userId else room.hostUserId),
          currentRound := (if room.currentRound.Some? then Some(Forget(room.currentRound.value, u)) else None))
  }

  function DeleteRoomStages(lost: set<TimerKind>): seq<Stage> {
    [[DeleteRoom]] + TryCancel(RoundTimeout, lost) + ClearSpeedModeTimer(lost)
    + [DeleteGame()]
  }

  /** What the departure of a participant sets off in the room that is `left`. */
  function AfterDeparture(titles: Option<Reveal>, left: Room, now: int, lost: set<TimerKind>): Plan {
    if left.gameStatus.Loading? then
      var (r, before) := RecomputeReady(left, now);
      Steps(before + [[SaveRoom(r)]])
    else if left.gameStatus.Playing? && left.currentRound.Some?
         && (AllIn(left.participants, left.currentRound.value.correctUserIds) || HasSkipMajority(left)) then
      EndRound(left, titles, now, lost)
    else
      Steps([[SaveRoom(left)]])
  }

  function LeavePlan(d: Data, room: Room, u: UserId, now: int, lost: set<TimerKind>): Plan {
    var i := IndexOf(room.participants, u);
    if i == -1 then
      Refused(NotFound)
    else
      var left := WithoutParticipant(room, i);
      if left.curUserCnt == 0 then Steps(DeleteRoomStages(lost)) else AfterDeparture(d.titles, left, now, lost)
  }

  function UpdatePlan(room: Room, r: Request): Plan
    requires r.Update?
  {
    if room.hostUserId != r.requester then Refused(Forbidden)
    else if !room.gameStatus.Waiting? && !room.gameStatus.Finished? then Refused(Conflict)
    else if r.maxUserCnt < room.curUserCnt then Refused(BadRequest)
    else if r.songLimit > r.songCount then Refused(BadRequest)
    else if r.isPrivate && !r.hasPassword && !room.isPrivate then Refused(BadRequest)
    else
      Steps([[SaveRoom(room.(songLimit := r.songLimit, isRandom := r.isRandom, speedModeEnabled := r.speedModeEnabled,
                             maxUserCnt := r.maxUserCnt, isPrivate := r.isPrivate))]])
  }

  function MarkReadyPlan(room: Room, u: UserId, now: int): Plan {
    if room.currentRound.None? || !room.gameStatus.Loading? then
      Steps([])
    else
      var round := room.currentRound.value;
      var ready := if u in round.readyUserIds then round.readyUserIds else round.readyUserIds + [u];
      var (r, before) := RecomputeReady(room.(currentRound := Some(round.(readyUserIds := ready))), now);
      Steps(before + [[SaveRoom(r)]])
  }

  function AddScore(ps: seq<Participant>, u: UserId, points: nat): seq<Participant> {
    var i := IndexOf(ps, u);
    if i == -1 then ps else ps[i := ps[i].(score := ps[i].score + points)]
  }

  /** The room after a correct answer: the answer takes the next rank, and a participant scores for it. */
  function WithCorrectAnswer(room: Room, u: UserId): Room
    requires room.currentRound.Some?
  {
    var round := room.currentRound.value;
    room.(participants := AddScore(room.participants, u, PointsForRank(|round.correctUserIds|)),
          currentRound := Some(round.(correctUserIds := round.correctUserIds + [u])))
  }

  datatype ChatAction = Broadcast | Blocked | Correct

  /** What becomes of a chat message. */
  ghost function ChatActionOf(d: Data, room: Room, u: UserId, message: string): ChatAction {
    var answers := if d.answers.Some? then d.answers.value else [];
    if room.currentRound.None? || room.currentRound.value.revealed || Judge(answers, message).Unrelated? then Broadcast
    else if !room.gameStatus.Playing? || !Judge(answers, message).Exact?
      || u in room.currentRound.value.correctUserIds then Blocked
    else Correct
  }

  /** What follows a correct answer: the end of the round, the speed mode reveal, or just the save. */
  function CorrectPlan(d: Data, answered: Room, now: int, lost: set<TimerKind>): Plan
    requires answered.currentRound.Some?
  {
    var round := answered.currentRound.value;
    if AllIn(answered.participants, round.correctUserIds) then
      EndRound(answered, d.titles, now, lost)
    else if answered.speedModeEnabled && |round.correctUserIds| == 1 then
      Steps([[ScheduleTimer(SpeedReveal, now + SPEED_MODE_REVEAL_DELAY_MS)],
             [SaveRoom(answered.(currentRound :=
               Some(round.(autoRevealAt := Some(now + SPEED_MODE_REVEAL_DELAY_MS)))))]])
    else
      Steps([[SaveRoom(answered)]])
  }

  ghost function SubmitPlan(d: Data, room: Room, u: UserId, message: string, now: int, lost: set<TimerKind>): Plan {
    if ChatActionOf(d, room, u, message).Correct? then CorrectPlan(d, WithCorrectAnswer(room, u), now, lost)
    else Steps([])
  }

  function RequestSkipPlan(d: Data, room: Room, u: UserId, now: int, lost: set<TimerKind>): Plan {
    if room.currentRound.None? || !room.gameStatus.Playing? then
      Steps([])
    else
      var round := room.currentRound.value;
      var skip := if u in round.skipUserIds then round.skipUserIds else round.skipUserIds + [u];
      var asked := room.(currentRound := Some(round.(skipUserIds := skip)));
      if HasSkipMajority(asked) then EndRound(asked, d.titles, now, lost) else Steps([[SaveRoom(asked)]])
  }

  function ForceSkipPlan(room: Room, requester: UserId, now: int): Plan {
    if room.hostUserId != requester then
      Refused(Forbidden)
    else if room.currentRound.None? || !room.gameStatus.Playing? then
      Refused(Conflict)
    else
      var round := room.currentRound.value.(forceSkipAt := Some(now + FORCE_SKIP_DELAY_MS));
      Steps([[ScheduleTimer(RoundTimeout, now + FORCE_SKIP_DELAY_MS)], [SaveRoom(room.(currentRound := Some(round)))]])
  }

  function NewRoom(r: Request): Room
    requires r.Create?
  {
    Room(r.host, [Participant(r.host, 0)], 1, r.maxUserCnt, r.songLimit, r.isRandom, r.isPrivate, r.speedModeEnabled,
      Waiting, None)
  }

  function CreatePlan(r: Request): Plan
    requires r.Create?
  {
    if r.songLimit > r.songCount || (r.isPrivate && !r.hasPassword) then Refused(BadRequest)
    else Steps([[SaveRoom(NewRoom(r))]])
  }

  function StartPlan(room: Room, requester: UserId, rounds: Option<seq<RoundData>>, shuffled: seq<RoundData>): Plan {
    if room.hostUserId != requester then Refused(Forbidden)
    else if !room.gameStatus.Waiting? then Refused(Conflict)
    else StartGame(room, rounds, shuffled)
  }

  function RestartPlan(room: Room, requester: UserId, rounds: Option<seq<RoundData>>, shuffled: seq<RoundData>): Plan {
    if room.hostUserId != requester then Refused(Forbidden)
    else if !room.gameStatus.Finished? then Refused(Conflict)
    else StartGame(room.(participants := ZeroScores(room.participants)), rounds, shuffled)
  }

  function NextPlan(d: Data, room: Room, requester: UserId, lost: set<TimerKind>): Plan {
    if room.hostUserId != requester then Refused(Forbidden)
    else if !room.gameStatus.RoundEnded? then Refused(Conflict)
    else var advance := AdvanceToNextRound(d, room); Plan(ClearSpeedModeTimer(lost) + advance.stages, advance.refusal)
  }

  /** The round timeout and the speed mode reveal both end the round that is being played, if one is. */
  function TimeUpPlan(d: Data, room: Room, now: int, lost: set<TimerKind>): Plan {
    if room.gameStatus.Playing? then EndRound(room, d.titles, now, lost) else Steps([])
  }

  /** The three timer handlers never refuse: a room that is gone or in another state leaves nothing to do. */
  predicate IsTimer(r: Request) {
    r.RoundTimeoutFired? || r.SpeedRevealFired? || r.SpeedNextFired?
  }

  /** What a request does to the stored documents it finds. */
  ghost function PlanOf(d: Data, r: Request): Plan {
    if r.Create? then
      CreatePlan(r)
    else if d.room.None? then
      if IsTimer(r) then Steps([]) else Refused(NotFound)
    else
      var room := d.room.value;
      match r
      case Join(u, account, matches) => JoinPlan(room, u, account, matches)
      case Leave(u, now, lost) => LeavePlan(d, room, u, now, lost)
      case Update(_, _, _, _, _, _, _, _) => UpdatePlan(room, r)
      case Start(u, rounds, shuffled) => StartPlan(room, u, rounds, shuffled)
      case Restart(u, rounds, shuffled) => RestartPlan(room, u, rounds, shuffled)
      case MarkReady(u, now) => MarkReadyPlan(room, u, now)
      case Next(u, lost) => NextPlan(d, room, u, lost)
      case Submit(u, message, now, lost) => SubmitPlan(d, room, u, message, now, lost)
      case RequestSkip(u, now, lost) => RequestSkipPlan(d, room, u, now, lost)
      case ForceSkip(u, now) => ForceSkipPlan(room, u, now)
      case SpeedNextFired => if room.gameStatus.RoundEnded? then AdvanceToNextRound(d, room) else Steps([])
      case RoundTimeoutFired(now, lost) => TimeUpPlan(d, room, now, lost)
      case SpeedRevealFired(now, lost) => TimeUpPlan(d, room, now, lost)
      case Create(_, _, _, _, _, _, _, _) => Steps([])
  }

  // ----- running a plan

  function RunStage(d: Data, stage: Stage): Data
    decreases stage
  {
    if stage == [] then d else RunStage(ExecData(d, stage[0]), stage[1..])
  }

  function RunStages(d: Data, stages: seq<Stage>): Data
    decreases stages
  {
    if stages == [] then d else RunStages(RunStage(d, stages[0]), stages[1..])
  }

  /** Whether a single write took effect. */
  datatype Landing = Landed | Missed

  /** Some writes of a stage take effect and others do not. */
  function RunPart(d: Data, stage: Stage, landed: seq<Landing>): Data
    requires |landed| == |stage|
    decreases stage
  {
    if stage == [] then d else RunPart(if landed[0].Landed? then ExecData(d, stage[0]) else d, stage[1..], landed[1..])
  }
}
