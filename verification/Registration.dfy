/** Challenge-response registration: the service task that drives it and the downlink task whose
    handlers feed it, as atomic steps under the core lock. */
module Registration {
  const NONCE_CAPACITY: nat := 64
  const SESSION_CAPACITY: nat := 33
  const STATUS_CAPACITY: nat := 16

  /** A member of a JSON object: absent, not a string, or a string. */
  datatype Field = Absent | NotText | Text(chars: string)

  datatype Action = ChallengeAction | ResultAction | OtherAction

  /** A downlink message; one that does not parse, or has no action, is `Garbage`. */
  datatype Message = Garbage | Message(action: Action, session: Field, nonce: Field, status: Field)

  datatype Option<T> = None | Some(value: T)

  /** Copying a string needs room for it and its terminator. */
  function Copied(field: Field, capacity: nat): Option<string> {
    if field.Text? && |field.chars| < capacity then Some(field.chars) else None
  }

  datatype Phase = Idle | WaitChallenge | WaitResult

  /** The registration context. Semaphores have names that are never used again; no nonce and no
      session are empty strings. */
  datatype Context = Context(
    inProgress: bool,
    phase: Phase,
    ok: bool,
    nonce: string,
    session: string,
    challengeSem: Option<nat>,
    resultSem: Option<nat>)

  /** What a handler does: the context it leaves and the semaphore it posts. */
  datatype Handled = Handled(ctx: Context, post: Option<nat>)

  predicate SessionMatches(ctx: Context, msg: Message) {
    ctx.session != "" && msg.Message? && Copied(msg.session, SESSION_CAPACITY) == Some(ctx.session)
  }

  /** `core_handle_challenge`. */
  function OnChallenge(ctx: Context, msg: Message): Handled {
    if !ctx.inProgress || !ctx.phase.WaitChallenge? then Handled(ctx, None)
    else if msg.Garbage? then Handled(ctx.(ok := false), ctx.challengeSem)
    else if !SessionMatches(ctx, msg) || ctx.nonce != "" then Handled(ctx, None)
    else
      match Copied(msg.nonce, NONCE_CAPACITY)
      case None => Handled(ctx.(ok := false), ctx.challengeSem)
      case Some(nonce) => Handled(ctx.(ok := true, nonce := nonce), ctx.challengeSem)
  }

  /** `core_handle_register_result`. */
  function OnResult(ctx: Context, msg: Message): Handled {
    if !ctx.inProgress || !ctx.phase.WaitResult? then Handled(ctx, None)
    else if msg.Garbage? then Handled(ctx.(ok := false), ctx.resultSem)
    else if !SessionMatches(ctx, msg) then Handled(ctx, None)
    else Handled(ctx.(ok := Copied(msg.status, STATUS_CAPACITY) == Some("ok")), ctx.resultSem)
  }

  /** `core_downlink_dispatch`: what does not parse never reaches a handler. */
  function OnMessage(ctx: Context, msg: Message): Handled {
    if msg.Garbage? || msg.action.OtherAction? then Handled(ctx, None)
    else if msg.action.ChallengeAction? then OnChallenge(ctx, msg)
    else OnResult(ctx, msg)
  }

  // ---------------------------------------------------------------- the service task

  /** Where the service task is inside a register job; `token` says how a wait ended, `good`
      whether the handshake succeeded. */
  datatype Place =
    | Away
    | Begun
    | Named
    | AskingOpen
    | AwaitChallenge
    | ChallengeWoken(token: bool)
    | Challenged
    | Holding(nonce: string, session: string)
    | Answered
    | ResultOpen
    | AwaitResult
    | ResultWoken(token: bool)
    | Leaving(good: bool)
    | Clearing(challengeSem: nat, resultSem: nat, good: bool)
    | Committing
    | Persisted

  datatype CoreState = Unregistered | Registered | Elsewhere

  /** Positions in the history of the steps that carried the handshake so far. */
  datatype Marks = Marks(
    begin: nat,
    name: nat,
    ask: nat,
    challenge: nat,
    wake: nat,
    sign: nat,
    answer: nat,
    result: nat,
    heard: nat,
    persist: nat)

  /** Beside the program state: the steps so far, the marks, and the session last named and nonce
      last accepted. */
  datatype System = System(
    ctx: Context,
    tokens: map<nat, nat>,
    made: nat,
    place: Place,
    core: CoreState,
    marker: bool,
    history: seq<Event>,
    at: Marks,
    session: string,
    nonce: string)

  datatype Event =
    | OtherJob(core: CoreState)
    | Begin
    | Name(session: string)
    | Ask
    | SendRequest
    | EndChallengeWait(token: bool)
    | CloseChallenge
    | TakeNonce
    | Sign(nonce: string)
    | Answer
    | SendResponse
    | EndResultWait(token: bool)
    | CloseResult
    | Fail
    | Clear
    | Destroy
    | Persist
    | FailPersist(stored: bool)
    | SetRegistered
    | Downlink(msg: Message)

  predicate Enabled(s: System, e: Event) {
    match e
    case OtherJob(core) => s.place.Away? && (core.Registered? ==> s.core.Registered? || s.marker)
    case Begin => s.place.Away? && s.core.Unregistered?
    case Name(session) => s.place.Begun? && session != ""
    case Ask => s.place.Named?
    case SendRequest => s.place.AskingOpen?
    case EndChallengeWait(token) => s.place.AwaitChallenge? && (token ==> HasToken(s, s.ctx.challengeSem))
    case CloseChallenge => s.place.ChallengeWoken?
    case TakeNonce => s.place.Challenged?
    case Sign(nonce) => s.place.Holding? && nonce == s.place.nonce
    case Answer => s.place.Answered?
    case SendResponse => s.place.ResultOpen?
    case EndResultWait(token) => s.place.AwaitResult? && (token ==> HasToken(s, s.ctx.resultSem))
    case CloseResult => s.place.ResultWoken?
    case Fail => MayFail(s.place)
    case Clear => s.place.Leaving?
    case Destroy => s.place.Clearing?
    case Persist => s.place.Committing?
    case FailPersist(_) => s.place.Committing?
    case SetRegistered => s.place.Persisted?
    case Downlink(_) => true
  }

  predicate HasToken(s: System, sem: Option<nat>) {
    sem.Some? && sem.value in s.tokens && s.tokens[sem.value] > 0
  }

  /** Key generation, device information, message building, signing and sending can fail. */
  predicate MayFail(place: Place) {
    place.Begun? || place.Named? || place.AskingOpen? || place.Holding? || place.Answered? || place.ResultOpen?
  }

  function Taken(tokens: map<nat, nat>, sem: Option<nat>): map<nat, nat>
    requires sem.Some? && sem.value in tokens && tokens[sem.value] > 0
  {
    tokens[sem.value := tokens[sem.value] - 1]
  }

  function Posted(tokens: map<nat, nat>, sem: Option<nat>): map<nat, nat> {
    if sem.Some? && sem.value in tokens then tokens[sem.value := tokens[sem.value] + 1] else tokens
  }

  function Idled(ctx: Context): Context {
    ctx.(phase := Idle)
  }

  function OpenedContext(challengeSem: nat, resultSem: nat): Context {
    Context(true, Idle, false, "", "", Some(challengeSem), Some(resultSem))
  }

  function ClearedContext(ctx: Context): Context {
    ctx.(inProgress := false, phase := Idle, session := "", challengeSem := None, resultSem := None)
  }

  /** `core_register_request_challenge` after its wait. */
  function ChallengeOutcome(ctx: Context, token: bool): Place {
    if token && ctx.nonce != "" && ctx.ok then Challenged else Leaving(false)
  }

  /** The first half of the handshake: up to holding the nonce. */
  function AskStep(s: System, e: Event): System
    requires Enabled(s, e)
  {
    match e
    case OtherJob(core) => s.(core := core)
    case Begin =>
      s.(ctx := OpenedContext(s.made, s.made + 1), tokens := s.tokens[s.made := 0][s.made + 1 := 0], made := s.made + 2,
         place := Begun)
    case Name(session) => s.(ctx := s.ctx.(session := session), place := Named)
    case Ask => s.(ctx := s.ctx.(phase := WaitChallenge, ok := false, nonce := ""), place := AskingOpen)
    case SendRequest => s.(place := AwaitChallenge)
    case EndChallengeWait(token) =>
      s.(tokens := if token then Taken(s.tokens, s.ctx.challengeSem) else s.tokens, place := ChallengeWoken(token))
    case CloseChallenge => s.(ctx := Idled(s.ctx), place := ChallengeOutcome(s.ctx, s.place.token))
    case TakeNonce =>
      s.(place := if s.ctx.nonce == "" || s.ctx.session == "" then Leaving(false) else Holding(s.ctx.nonce, s.ctx.session))
    case _ => s
  }

  /** The second half: signing, the result, and the commit. */
  function AnswerStep(s: System, e: Event): System
    requires Enabled(s, e)
  {
    match e
    case Sign(_) => s.(place := Answered)
    case Answer => s.(ctx := s.ctx.(phase := WaitResult, ok := false), place := ResultOpen)
    case SendResponse => s.(place := AwaitResult)
    case EndResultWait(token) =>
      s.(tokens := if token then Taken(s.tokens, s.ctx.resultSem) else s.tokens, place := ResultWoken(token))
    case CloseResult => s.(ctx := Idled(s.ctx), place := Leaving(s.place.token && s.ctx.ok))
    case Fail => s.(ctx := Idled(s.ctx), place := Leaving(false))
    case Clear =>
      if s.ctx.challengeSem.Some? && s.ctx.resultSem.Some? then
        s.(ctx := ClearedContext(s.ctx), place := Clearing(s.ctx.challengeSem.value, s.ctx.resultSem.value, s.place.good))
      else s
    case Destroy =>
      s.(tokens := s.tokens - {s.place.challengeSem, s.place.resultSem}, place := if s.place.good then Committing else Away)
    case Persist => s.(marker := true, place := Persisted)
    case FailPersist(stored) => s.(marker := s.marker || stored, place := Away)
    case SetRegistered => s.(core := Registered, place := Away)
    case Downlink(msg) =>
      var handled := OnMessage(s.ctx, msg);
      s.(ctx := handled.ctx, tokens := Posted(s.tokens, handled.post))
    case _ => s
  }

  predicate Asking(e: Event) {
    e.OtherJob? || e.Begin? || e.Name? || e.Ask? || e.SendRequest? || e.EndChallengeWait? || e.CloseChallenge? || e.TakeNonce?
  }

  /** A message the context takes as its challenge. */
  predicate AcceptsChallenge(ctx: Context, e: Event) {
    e.Downlink? && ctx.phase.WaitChallenge? && OnMessage(ctx, e.msg).post.Some? && OnMessage(ctx, e.msg).ctx.nonce != ""
  }

  /** A message the context takes as its approval. */
  predicate AcceptsResult(ctx: Context, e: Event) {
    e.Downlink? && ctx.phase.WaitResult? && OnMessage(ctx, e.msg).post.Some? && OnMessage(ctx, e.msg).ctx.ok
  }

  /** Note the position of a step when the handshake hangs on it. */
  function Marked(at: Marks, ctx: Context, e: Event, now: nat): Marks {
    match e
    case Begin => at.(begin := now)
    case Name(_) => at.(name := now)
    case Ask => at.(ask := now)
    case CloseChallenge => at.(wake := now)
    case Sign(_) => at.(sign := now)
    case Answer => at.(answer := now)
    case CloseResult => at.(heard := now)
    case Persist => at.(persist := now)
    case Downlink(_) =>
      if AcceptsChallenge(ctx, e) then at.(challenge := now)
      else if AcceptsResult(ctx, e) then at.(result := now)
      else at
    case _ => at
  }

  function Step(s: System, e: Event): System
    requires Enabled(s, e)
  {
    if Asking(e) then AskStep(s, e) else AnswerStep(s, e)
  }

  function Next(s: System, e: Event): System
    requires Enabled(s, e)
  {
    Step(s, e).(history := s.history + [e],
                at := Marked(s.at, s.ctx, e, |s.history|),
                session := if e.Name? then e.session else s.session,
                nonce := if AcceptsChallenge(s.ctx, e) then OnMessage(s.ctx, e.msg).ctx.nonce else s.nonce)
  }

  // ---------------------------------------------------------------- invariants

  predicate WaitsForChallenge(place: Place) {
    place.AskingOpen? || place.AwaitChallenge? || place.ChallengeWoken?
  }

  predicate WaitsForResult(place: Place) {
    place.ResultOpen? || place.AwaitResult? || place.ResultWoken?
  }

  predicate Outside(place: Place) {
    place.Away? || place.Clearing? || place.Committing? || place.Persisted?
  }

  /** The context follows the service task, and names only semaphores that exist. */
  predicate Shape(s: System) {
    && (s.ctx.inProgress <==> !Outside(s.place))
    && (s.ctx.phase.WaitChallenge? <==> WaitsForChallenge(s.place))
    && (s.ctx.phase.WaitResult? <==> WaitsForResult(s.place))
    && (forall k | k in s.tokens :: k < s.made)
    && (s.ctx.inProgress ==> s.ctx.challengeSem.Some? && s.ctx.resultSem.Some?)
    && (!s.ctx.inProgress ==> s.ctx.challengeSem.None? && s.ctx.resultSem.None? && s.ctx.session == "")
    && (s.ctx.challengeSem.Some? ==> s.ctx.challengeSem.value in s.tokens)
    && (s.ctx.resultSem.Some? ==> s.ctx.resultSem.value in s.tokens)
  }

  /** How far the handshake has come. */
  function Reached(place: Place): nat {
    match place
    case Away => 0
    case Begun => 1
    case Named => 2
    case AskingOpen => 3
    case AwaitChallenge => 3
    case ChallengeWoken(_) => 3
    case Challenged => 4
    case Holding(_, _) => 4
    case Answered => 5
    case ResultOpen => 6
    case AwaitResult => 6
    case ResultWoken(_) => 6
    case Leaving(good) => if good then 7 else 0
    case Clearing(_, _, good) => if good then 7 else 0
    case Committing => 7
    case Persisted => 8
  }

  predicate BeginsAt(h: seq<Event>, begin: nat) {
    begin < |h| && h[begin].Begin? && forall i | begin < i < |h| :: !h[i].Begin?
  }

  predicate NamedAt(h: seq<Event>, begin: nat, name: nat, session: string) {
    begin < name < |h| && h[name] == Name(session) && session != ""
  }

  predicate AskedAt(h: seq<Event>, name: nat, ask: nat) {
    name < ask < |h| && h[ask].Ask?
  }

  /** The message there is a challenge for the session, with this nonce. */
  predicate ChallengeAt(h: seq<Event>, ask: nat, challenge: nat, session: string, nonce: string) {
    && ask < challenge < |h| && h[challenge].Downlink? && h[challenge].msg.Message?
    && h[challenge].msg.action.ChallengeAction?
    && h[challenge].msg.session == Text(session)
    && h[challenge].msg.nonce == Text(nonce) && nonce != ""
  }

  predicate WokenAt(h: seq<Event>, challenge: nat, wake: nat) {
    challenge < wake < |h| && h[wake].CloseChallenge?
  }

  predicate NothingSigned(h: seq<Event>, begin: nat) {
    forall i | begin < i < |h| :: !h[i].Sign?
  }

  /** The nonce was signed, and nothing else was. */
  predicate SignedAt(h: seq<Event>, begin: nat, wake: nat, sign: nat, nonce: string) {
    && wake < sign < |h| && h[sign] == Sign(nonce)
    && forall i | begin < i < |h| && h[i].Sign? :: i == sign
  }

  predicate AnsweredAt(h: seq<Event>, sign: nat, answer: nat) {
    sign < answer < |h| && h[answer].Answer?
  }

  /** The message there is an "ok" for the session. */
  predicate ResultAt(h: seq<Event>, answer: nat, result: nat, session: string) {
    && answer < result < |h| && h[result].Downlink? && h[result].msg.Message?
    && h[result].msg.action.ResultAction?
    && h[result].msg.session == Text(session)
    && h[result].msg.status == Text("ok")
  }

  predicate HeardAt(h: seq<Event>, result: nat, heard: nat) {
    result < heard < |h| && h[heard].CloseResult?
  }

  predicate PersistedAt(h: seq<Event>, heard: nat, persist: nat) {
    heard < persist < |h| && h[persist].Persist?
  }

  /** Everything that must have happened, in this order, by the time a level is reached: a session
      of its own was named and asked with; a challenge for that session came while it was open;
      exactly that challenge's nonce was signed; an "ok" for that session came while the result was
      open; and the marker was persisted. */
  predicate Story(h: seq<Event>, at: Marks, level: nat, session: string, nonce: string) {
    && (level >= 1 ==> BeginsAt(h, at.begin))
    && (level >= 2 ==> NamedAt(h, at.begin, at.name, session))
    && (level >= 3 ==> AskedAt(h, at.name, at.ask))
    && (level >= 4 ==> ChallengeAt(h, at.ask, at.challenge, session, nonce) && WokenAt(h, at.challenge, at.wake))
    && (1 <= level <= 4 ==> NothingSigned(h, at.begin))
    && (level >= 5 ==> SignedAt(h, at.begin, at.wake, at.sign, nonce))
    && (level >= 6 ==> AnsweredAt(h, at.sign, at.answer))
    && (level >= 7 ==> ResultAt(h, at.answer, at.result, session) && HeardAt(h, at.result, at.heard))
    && (level >= 8 ==> PersistedAt(h, at.heard, at.persist))
  }

  /** What the context and the service's own copies hold is what the history says. */
  predicate Agrees(s: System) {
    && (2 <= Reached(s.place) <= 6 ==> s.ctx.session == s.session)
    && (WaitsForChallenge(s.place) && s.ctx.nonce != "" ==>
          s.ctx.nonce == s.nonce && ChallengeAt(s.history, s.at.ask, s.at.challenge, s.session, s.nonce))
    && (s.place.Challenged? ==> s.ctx.nonce == s.nonce)
    && (s.place.Holding? ==> s.place.nonce == s.nonce)
    && (WaitsForResult(s.place) && s.ctx.ok ==> ResultAt(s.history, s.at.answer, s.at.result, s.session))
    && (s.place.Persisted? ==> s.marker)
  }

  predicate Goes(s: System) {
    Story(s.history, s.at, Reached(s.place), s.session, s.nonce) && Agrees(s)
  }

  predicate Inv(s: System) {
    Shape(s) && Goes(s)
  }

  function Start(core: CoreState, marker: bool): System {
    System(Context(false, Idle, false, "", "", None, None), map[], 0, Away, core, marker, [],
           Marks(0, 0, 0, 0, 0, 0, 0, 0, 0, 0), "", "")
  }

  lemma StartInv(core: CoreState, marker: bool)
    ensures Inv(Start(core, marker))
  {
  }

  lemma AskShape(s: System, e: Event)
    requires Shape(s) && Enabled(s, e) && Asking(e)
    ensures Shape(Next(s, e))
  {
  }

  lemma AnswerShape(s: System, e: Event)
    requires Shape(s) && Enabled(s, e) && !Asking(e) && !e.Downlink?
    ensures Shape(Next(s, e))
  {
  }

  lemma DownlinkShape(s: System, e: Event)
    requires Shape(s) && e.Downlink?
    ensures Shape(Next(s, e))
  {
  }

  lemma ShapeKept(s: System, e: Event)
    requires Shape(s) && Enabled(s, e)
    ensures Shape(Next(s, e))
  {
    hide Shape, Next, Enabled;
    if Asking(e) { AskShape(s, e); } else if e.Downlink? { DownlinkShape(s, e); } else { AnswerShape(s, e); }
  }

  /** A step that is neither a begin nor a signature leaves the story standing. */
  lemma StoryExtends(h: seq<Event>, at: Marks, level: nat, session: string, nonce: string, e: Event)
    requires Story(h, at, level, session, nonce) && !e.Begin? && !e.Sign?
    ensures Story(h + [e], at, level, session, nonce)
  {
  }

  lemma MessagesExtend(h: seq<Event>, at: Marks, session: string, nonce: string, e: Event)
    ensures ChallengeAt(h, at.ask, at.challenge, session, nonce) ==>
              ChallengeAt(h + [e], at.ask, at.challenge, session, nonce)
    ensures ResultAt(h, at.answer, at.result, session) ==> ResultAt(h + [e], at.answer, at.result, session)
  {
  }

  lemma OpeningKept(s: System, e: Event)
    requires Inv(s) && Enabled(s, e) && (e.OtherJob? || e.Begin? || e.Name? || e.Ask?)
    ensures Goes(Next(s, e))
  {
    hide ChallengeAt, WokenAt, SignedAt, AnsweredAt, ResultAt, HeardAt, PersistedAt;
    if !e.Begin? { StoryExtends(s.history, s.at, Reached(s.place), s.session, s.nonce, e); }
  }

  lemma ChallengeKept(s: System, e: Event)
    requires Inv(s) && Enabled(s, e) && (e.SendRequest? || e.EndChallengeWait? || e.CloseChallenge? || e.TakeNonce?)
    ensures Goes(Next(s, e))
  {
    hide BeginsAt, NamedAt, AskedAt, NothingSigned, SignedAt, AnsweredAt, ResultAt, HeardAt, PersistedAt;
    StoryExtends(s.history, s.at, Reached(s.place), s.session, s.nonce, e);
  }

  /** The signature itself: the story so far stands, and it is the only one. */
  lemma SignExtends(h: seq<Event>, at: Marks, session: string, nonce: string)
    requires Story(h, at, 4, session, nonce)
    ensures Story(h + [Sign(nonce)], at.(sign := |h|), 5, session, nonce)
  {
  }

  lemma SignKept(s: System, e: Event)
    requires Inv(s) && Enabled(s, e) && e.Sign?
    ensures Goes(Next(s, e))
  {
    hide Story;
    SignExtends(s.history, s.at, s.session, s.nonce);
  }

  lemma AnswerKept(s: System, e: Event)
    requires Inv(s) && Enabled(s, e) && (e.Answer? || e.SendResponse? || e.EndResultWait?)
    ensures Goes(Next(s, e))
  {
    hide BeginsAt, NamedAt, AskedAt, ChallengeAt, WokenAt, NothingSigned, ResultAt, HeardAt, PersistedAt;
    StoryExtends(s.history, s.at, Reached(s.place), s.session, s.nonce, e);
    MessagesExtend(s.history, s.at, s.session, s.nonce, e);
  }

  lemma ResultKept(s: System, e: Event)
    requires Inv(s) && Enabled(s, e) && (e.CloseResult? || e.Fail?)
    ensures Goes(Next(s, e))
  {
    hide BeginsAt, NamedAt, AskedAt, ChallengeAt, WokenAt, NothingSigned, SignedAt, AnsweredAt, PersistedAt;
    StoryExtends(s.history, s.at, Reached(s.place), s.session, s.nonce, e);
  }

  lemma CommitKept(s: System, e: Event)
    requires Inv(s) && Enabled(s, e)
    requires e.Clear? || e.Destroy? || e.Persist? || e.FailPersist? || e.SetRegistered?
    ensures Goes(Next(s, e))
  {
    hide BeginsAt, NamedAt, AskedAt, ChallengeAt, WokenAt, NothingSigned, SignedAt, AnsweredAt, ResultAt;
    StoryExtends(s.history, s.at, Reached(s.place), s.session, s.nonce, e);
  }

  lemma DownlinkKept(s: System, e: Event)
    requires Inv(s) && e.Downlink?
    ensures Goes(Next(s, e))
  {
    hide BeginsAt, NamedAt, WokenAt, NothingSigned, SignedAt, HeardAt, PersistedAt;
    StoryExtends(s.history, s.at, Reached(s.place), s.session, s.nonce, e);
    MessagesExtend(s.history, s.at, s.session, s.nonce, e);
  }

  lemma StepInv(s: System, e: Event)
    requires Inv(s) && Enabled(s, e)
    ensures Inv(Next(s, e))
  {
    hide Next, Goes, Shape, Enabled;
    ShapeKept(s, e);
    match e
    case OtherJob(_) | Begin | Name(_) | Ask => OpeningKept(s, e);
    case SendRequest | EndChallengeWait(_) | CloseChallenge | TakeNonce => ChallengeKept(s, e);
    case Sign(_) => SignKept(s, e);
    case Answer | SendResponse | EndResultWait(_) => AnswerKept(s, e);
    case CloseResult | Fail => ResultKept(s, e);
    case Clear | Destroy | Persist | FailPersist(_) | SetRegistered => CommitKept(s, e);
    case Downlink(_) => DownlinkKept(s, e);
  }

  // ---------------------------------------------------------------- whole runs

  predicate Moves(s: System, e: Event, t: System) {
    Enabled(s, e) && t == Next(s, e)
  }

  predicate Run(states: seq<System>, events: seq<Event>) {
    && |states| == |events| + 1
    && states[0] == Start(states[0].core, states[0].marker)
    && (forall i | 0 <= i < |events| :: Moves(states[i], events[i], states[i + 1]))
  }

  lemma {:induction false} RunInv(states: seq<System>, events: seq<Event>, n: nat)
    requires Run(states, events) && n < |states|
    ensures Inv(states[n]) && states[n].history == events[..n]
  {
    hide Inv, Enabled, Step, Marked;
    if n == 0 {
      StartInv(states[0].core, states[0].marker);
    } else {
      RunInv(states, events, n - 1);
      assert Moves(states[n - 1], events[n - 1], states[n]);
      StepInv(states[n - 1], events[n - 1]);
      assert events[..n - 1] + [events[n - 1]] == events[..n];
    }
  }

  /** Registration sets REGISTERED only at the end of a complete handshake: among the steps before
      it, since the job began, are the whole story in order, and the marker is already stored. */
  lemma RegisteredOnlyByHandshake(states: seq<System>, events: seq<Event>, n: nat)
    requires Run(states, events) && n < |events| && events[n].SetRegistered?
    ensures Story(events[..n], states[n].at, 8, states[n].session, states[n].nonce)
    ensures states[n].marker
  {
    RunInv(states, events, n);
    assert Moves(states[n], events[n], states[n + 1]);
  }

  /** What can make the core REGISTERED: the end of a registration, or, with the marker stored, another
      job such as a connect. */
  lemma BecomesRegisteredBy(s: System, e: Event)
    requires Enabled(s, e) && !s.core.Registered? && Next(s, e).core.Registered?
    ensures e.SetRegistered? || (e == OtherJob(Registered) && s.marker)
  {
    match e
    case Begin => case Name(_) => case Ask => case SendRequest => case EndChallengeWait(_) => case CloseChallenge =>
    case TakeNonce => case Sign(_) => case Answer => case SendResponse => case EndResultWait(_) => case CloseResult =>
    case Fail => case Clear => case Destroy => case Persist => case FailPersist(_) => case Downlink(_) =>
    case OtherJob(_) => case SetRegistered =>
  }

  /** What stores the marker: only the commit of a registration, even one that then reports an error. */
  lemma BecomesMarkedBy(s: System, e: Event)
    requires Enabled(s, e) && !s.marker && Next(s, e).marker
    ensures s.place.Committing? && (e.Persist? || e.FailPersist?)
  {
    match e
    case Begin => case Name(_) => case Ask => case SendRequest => case EndChallengeWait(_) => case CloseChallenge =>
    case TakeNonce => case Sign(_) => case Answer => case SendResponse => case EndResultWait(_) => case CloseResult =>
    case Fail => case Clear => case Destroy => case Persist => case FailPersist(_) => case Downlink(_) =>
    case OtherJob(_) => case SetRegistered =>
  }

  /** A handshake was complete when step `m` stored the marker. */
  predicate MarkedAt(states: seq<System>, events: seq<Event>, m: nat) {
    && m < |events| && m < |states| && (events[m].Persist? || events[m].FailPersist?)
    && Story(events[..m], states[m].at, 7, states[m].session, states[m].nonce)
  }

  /** A device that starts without the marker has it only after a complete handshake. */
  lemma {:induction false} MarkerMeansHandshake(states: seq<System>, events: seq<Event>, n: nat) returns (m: nat)
    requires Run(states, events) && n < |states| && !states[0].marker && states[n].marker
    ensures m < n && MarkedAt(states, events, m)
  {
    hide Story, Enabled, Next, Inv;
    assert n > 0;
    assert Moves(states[n - 1], events[n - 1], states[n]);
    if states[n - 1].marker {
      m := MarkerMeansHandshake(states, events, n - 1);
    } else {
      m := n - 1;
      BecomesMarkedBy(states[m], events[m]);
      RunInv(states, events, m);
      CommittingIsComplete(states[m]);
    }
  }

  lemma CommittingIsComplete(s: System)
    requires Inv(s)
    ensures s.place.Committing? ==> Story(s.history, s.at, 7, s.session, s.nonce)
    ensures s.place.Persisted? ==> s.marker
  {
  }

  /** Such a device is REGISTERED, in whatever way it became so and however often it was restarted
      since, only after a complete handshake in which exactly the challenge's nonce was signed. */
  lemma {:induction false} RegisteredMeansHandshake(states: seq<System>, events: seq<Event>, n: nat) returns (m: nat)
    requires Run(states, events) && n < |states| && !states[0].marker && !states[0].core.Registered?
    requires states[n].core.Registered?
    ensures m < n && MarkedAt(states, events, m)
  {
    hide Story, Enabled, Next, Inv;
    assert n > 0;
    assert Moves(states[n - 1], events[n - 1], states[n]);
    if states[n - 1].core.Registered? {
      m := RegisteredMeansHandshake(states, events, n - 1);
    } else {
      BecomesRegisteredBy(states[n - 1], events[n - 1]);
      RunInv(states, events, n - 1);
      CommittingIsComplete(states[n - 1]);
      SetRegisteredIsPersisted(states[n - 1]);
      m := MarkerMeansHandshake(states, events, n - 1);
    }
  }

  lemma SetRegisteredIsPersisted(s: System)
    ensures Enabled(s, SetRegistered) ==> s.place.Persisted?
  {
  }

  /** In every reachable state, exactly these messages do anything: a challenge for the current
      session while the challenge is open and no nonce has been taken, and a result for the current
      session while the result is open. Late, foreign and duplicate ones change nothing and wake
      nobody. */
  lemma OnlyExpectedMessagesCount(states: seq<System>, events: seq<Event>, n: nat, msg: Message)
    requires Run(states, events) && n < |states|
    ensures var s := states[n];
            OnMessage(s.ctx, msg) != Handled(s.ctx, None) <==>
              && SessionMatches(s.ctx, msg)
              && (|| (msg.action.ChallengeAction? && WaitsForChallenge(s.place) && s.ctx.nonce == "")
                  || (msg.action.ResultAction? && WaitsForResult(s.place)))
  {
    RunInv(states, events, n);
  }

  /** A challenge for the session, the first while one is open; a result for it while one is open. */
  predicate ChallengeCounts(ctx: Context, msg: Message) {
    && ctx.inProgress && ctx.phase == WaitChallenge && ctx.nonce == ""
    && msg.Message? && ctx.session != "" && msg.session == Text(ctx.session) && |ctx.session| < 33
  }

  predicate ResultCounts(ctx: Context, msg: Message) {
    && ctx.inProgress && ctx.phase == WaitResult
    && msg.Message? && ctx.session != "" && msg.session == Text(ctx.session) && |ctx.session| < 33
  }

  /** What a message does, in every run: a challenge that counts leaves its nonce, if there is room for it,
      and a result that counts says whether it was "ok"; either wakes the task that waits for it. Any other
      leaves everything as it was. */
  lemma MessageEffect(states: seq<System>, events: seq<Event>, n: nat)
    requires Run(states, events) && n < |events| && events[n].Downlink?
    ensures var s, t, msg := states[n], states[n + 1], events[n].msg;
            && t.place == s.place && t.core == s.core && t.marker == s.marker
            && if msg.Message? && msg.action.ChallengeAction? && ChallengeCounts(s.ctx, msg) then
                 && WaitsForChallenge(s.place) && s.ctx.challengeSem.Some? && s.ctx.challengeSem.value in s.tokens
                 && t.tokens == s.tokens[s.ctx.challengeSem.value := s.tokens[s.ctx.challengeSem.value] + 1]
                 && t.ctx == if msg.nonce.Text? && |msg.nonce.chars| < 64 then s.ctx.(ok := true, nonce := msg.nonce.chars)
                             else s.ctx.(ok := false)
               else if msg.Message? && msg.action.ResultAction? && ResultCounts(s.ctx, msg) then
                 && WaitsForResult(s.place) && s.ctx.resultSem.Some? && s.ctx.resultSem.value in s.tokens
                 && t.tokens == s.tokens[s.ctx.resultSem.value := s.tokens[s.ctx.resultSem.value] + 1]
                 && t.ctx == s.ctx.(ok := msg.status == Text("ok"))
               else t.ctx == s.ctx && t.tokens == s.tokens
  {
    RunInv(states, events, n);
    assert Moves(states[n], events[n], states[n + 1]);
    hide Goes;
  }

  /** How a wait ends, in every run: with a token and the answer hoped for the handshake goes on, otherwise the
      registration is given up, even if the answer comes with the time-out. */
  lemma WaitsDecide(states: seq<System>, events: seq<Event>, n: nat)
    requires Run(states, events) && n < |events|
    ensures events[n].CloseChallenge? ==>
              states[n + 1].place ==
                if states[n].place == ChallengeWoken(true) && states[n].ctx.ok && states[n].ctx.nonce != "" then Challenged
                else Leaving(false)
    ensures events[n].CloseResult? ==>
              states[n + 1].place == Leaving(states[n].place == ResultWoken(true) && states[n].ctx.ok)
  {
    assert Moves(states[n], events[n], states[n + 1]);
  }

  // ---------------------------------------------------------------- a handshake that goes well

  /** The steps of a registration in which everything works and the cloud approves. */
  function GoodSteps(session: string, nonce: string): (events: seq<Event>)
    ensures |events| == 18
  {
    [Begin, Name(session), Ask, SendRequest, Downlink(Message(ChallengeAction, Text(session), Text(nonce), Absent)),
     EndChallengeWait(true), CloseChallenge, TakeNonce, Sign(nonce), Answer, SendResponse,
     Downlink(Message(ResultAction, Text(session), Absent, Text("ok"))), EndResultWait(true), CloseResult,
     Clear, Destroy, Persist, SetRegistered]
  }

  predicate Fits(session: string, nonce: string) {
    0 < |session| < 33 && 0 < |nonce| < 64
  }

  /** The task is there, with two semaphores of its own. */
  predicate On(s: System, place: Place, phase: Phase, session: string, nonce: string) {
    && s.place == place && s.ctx.inProgress && s.ctx.phase == phase && s.ctx.session == session && s.ctx.nonce == nonce
    && s.ctx.challengeSem.Some? && s.ctx.resultSem.Some? && s.ctx.challengeSem != s.ctx.resultSem
    && s.ctx.challengeSem.value in s.tokens && s.ctx.resultSem.value in s.tokens
  }

  /** After the first `k` of these steps. */
  predicate Stage(k: nat, s: System, session: string, nonce: string) {
    if k == 0 then Shape(s) && s.place.Away? && s.core.Unregistered?
    else if k == 1 then On(s, Begun, Idle, "", "")
    else if k == 2 then On(s, Named, Idle, session, "")
    else if k == 3 then On(s, AskingOpen, WaitChallenge, session, "")
    else if k == 4 then On(s, AwaitChallenge, WaitChallenge, session, "")
    else if k == 5 then On(s, AwaitChallenge, WaitChallenge, session, nonce) && s.ctx.ok && HasToken(s, s.ctx.challengeSem)
    else if k == 6 then On(s, ChallengeWoken(true), WaitChallenge, session, nonce) && s.ctx.ok
    else if k == 7 then On(s, Challenged, Idle, session, nonce)
    else if k == 8 then On(s, Holding(nonce, session), Idle, session, nonce)
    else if k == 9 then On(s, Answered, Idle, session, nonce)
    else if k == 10 then On(s, ResultOpen, WaitResult, session, nonce)
    else if k == 11 then On(s, AwaitResult, WaitResult, session, nonce)
    else if k == 12 then On(s, AwaitResult, WaitResult, session, nonce) && s.ctx.ok && HasToken(s, s.ctx.resultSem)
    else if k == 13 then On(s, ResultWoken(true), WaitResult, session, nonce) && s.ctx.ok
    else if k == 14 then On(s, Leaving(true), Idle, session, nonce)
    else if k == 15 then s.place.Clearing? && s.place.good
    else if k == 16 then s.place.Committing?
    else if k == 17 then s.place.Persisted? && s.marker
    else s.place.Away? && s.core.Registered? && s.marker
  }

  lemma BeginStage(k: nat, s: System, session: string, nonce: string)
    requires Fits(session, nonce) && 0 <= k <= 1 && Stage(k, s, session, nonce)
    ensures Enabled(s, GoodSteps(session, nonce)[k]) && Stage(k + 1, Next(s, GoodSteps(session, nonce)[k]), session, nonce)
  {
    hide Marked;
  }

  lemma AskStage(k: nat, s: System, session: string, nonce: string)
    requires Fits(session, nonce) && 2 <= k <= 3 && Stage(k, s, session, nonce)
    ensures Enabled(s, GoodSteps(session, nonce)[k]) && Stage(k + 1, Next(s, GoodSteps(session, nonce)[k]), session, nonce)
  {
    hide Marked;
  }

  lemma ChallengeStage(k: nat, s: System, session: string, nonce: string)
    requires Fits(session, nonce) && 4 <= k <= 4 && Stage(k, s, session, nonce)
    ensures Enabled(s, GoodSteps(session, nonce)[k]) && Stage(k + 1, Next(s, GoodSteps(session, nonce)[k]), session, nonce)
  {
    hide Marked;
  }

  lemma WokenStage(k: nat, s: System, session: string, nonce: string)
    requires Fits(session, nonce) && 5 <= k <= 6 && Stage(k, s, session, nonce)
    ensures Enabled(s, GoodSteps(session, nonce)[k]) && Stage(k + 1, Next(s, GoodSteps(session, nonce)[k]), session, nonce)
  {
    hide Marked;
  }

  lemma SignStage(k: nat, s: System, session: string, nonce: string)
    requires Fits(session, nonce) && 7 <= k <= 8 && Stage(k, s, session, nonce)
    ensures Enabled(s, GoodSteps(session, nonce)[k]) && Stage(k + 1, Next(s, GoodSteps(session, nonce)[k]), session, nonce)
  {
    hide Marked;
  }

  lemma SendStage(k: nat, s: System, session: string, nonce: string)
    requires Fits(session, nonce) && 9 <= k <= 10 && Stage(k, s, session, nonce)
    ensures Enabled(s, GoodSteps(session, nonce)[k]) && Stage(k + 1, Next(s, GoodSteps(session, nonce)[k]), session, nonce)
  {
    hide Marked;
  }

  lemma ResultStage(k: nat, s: System, session: string, nonce: string)
    requires Fits(session, nonce) && 11 <= k <= 11 && Stage(k, s, session, nonce)
    ensures Enabled(s, GoodSteps(session, nonce)[k]) && Stage(k + 1, Next(s, GoodSteps(session, nonce)[k]), session, nonce)
  {
    hide Marked;
  }

  lemma ApprovedStage(k: nat, s: System, session: string, nonce: string)
    requires Fits(session, nonce) && 12 <= k <= 13 && Stage(k, s, session, nonce)
    ensures Enabled(s, GoodSteps(session, nonce)[k]) && Stage(k + 1, Next(s, GoodSteps(session, nonce)[k]), session, nonce)
  {
    hide Marked;
  }

  lemma CommitStage(k: nat, s: System, session: string, nonce: string)
    requires Fits(session, nonce) && 14 <= k <= 17 && Stage(k, s, session, nonce)
    ensures Enabled(s, GoodSteps(session, nonce)[k]) && Stage(k + 1, Next(s, GoodSteps(session, nonce)[k]), session, nonce)
  {
    hide Marked;
  }

  lemma StageStep(k: nat, s: System, session: string, nonce: string)
    requires Fits(session, nonce) && k < 18 && Stage(k, s, session, nonce)
    ensures Enabled(s, GoodSteps(session, nonce)[k]) && Stage(k + 1, Next(s, GoodSteps(session, nonce)[k]), session, nonce)
  {
    hide *;
    if k <= 1 { BeginStage(k, s, session, nonce); }
    else if k <= 3 { AskStage(k, s, session, nonce); }
    else if k <= 4 { ChallengeStage(k, s, session, nonce); }
    else if k <= 6 { WokenStage(k, s, session, nonce); }
    else if k <= 8 { SignStage(k, s, session, nonce); }
    else if k <= 10 { SendStage(k, s, session, nonce); }
    else if k <= 11 { ResultStage(k, s, session, nonce); }
    else if k <= 13 { ApprovedStage(k, s, session, nonce); }
    else { CommitStage(k, s, session, nonce); }
  }

  lemma RunMore(states: seq<System>, events: seq<Event>, e: Event) returns (longer: seq<System>)
    requires Run(states, events) && |states| == |events| + 1 && Enabled(states[|events|], e)
    ensures Run(longer, events + [e]) && |longer| == |states| + 1 && states <= longer
    ensures longer[|events| + 1] == Next(states[|events|], e)
  {
    hide Enabled, Next, Start;
    var last := states[|events|];
    longer := states + [Next(last, e)];
    forall i | 0 <= i < |events + [e]|
      ensures Moves(longer[i], (events + [e])[i], longer[i + 1])
    {
      if i < |events| { assert Moves(states[i], events[i], states[i + 1]); }
    }
  }

  lemma {:induction false} FirstSteps(states: seq<System>, events: seq<Event>, session: string, nonce: string, k: nat)
    returns (longer: seq<System>)
    requires Run(states, events) && |states| == |events| + 1 && Fits(session, nonce) && k <= 18
    requires Stage(0, states[|events|], session, nonce)
    ensures Run(longer, events + GoodSteps(session, nonce)[..k]) && |longer| == |states| + k && states <= longer
    ensures Stage(k, longer[|events| + k], session, nonce)
  {
    hide Run, Stage, Enabled, Next, Fits, GoodSteps;
    var all := GoodSteps(session, nonce);
    if k == 0 {
      assert events + all[..0] == events;
      longer := states;
    } else {
      longer := FirstSteps(states, events, session, nonce, k - 1);
      StageStep(k - 1, longer[|events| + k - 1], session, nonce);
      longer := RunMore(longer, events + all[..k - 1], all[k - 1]);
      assert events + all[..k - 1] + [all[k - 1]] == events + all[..k];
    }
  }

  /** The converse of the theorems above: from every reachable state in which an UNREGISTERED core is between jobs,
      with any session and nonce that fit, exactly these steps can be made one after the other, and they end
      REGISTERED with the marker stored. */
  lemma HandshakeRegisters(states: seq<System>, events: seq<Event>, session: string, nonce: string) returns (longer: seq<System>)
    requires Run(states, events) && states[|states| - 1].place.Away? && states[|states| - 1].core.Unregistered?
    requires 0 < |session| < 33 && 0 < |nonce| < 64
    ensures Run(longer, events + GoodSteps(session, nonce)) && states <= longer
    ensures longer[|longer| - 1].core.Registered? && longer[|longer| - 1].marker
  {
    RunInv(states, events, |events|);
    hide Run, Enabled, Next, Goes, Shape, GoodSteps;
    longer := FirstSteps(states, events, session, nonce, 18);
    assert GoodSteps(session, nonce)[..18] == GoodSteps(session, nonce);
  }

  /** A semaphore that a handler posts exists; none is posted once the job has cleared the context. */
  lemma PostsOnlyLiveSemaphores(states: seq<System>, events: seq<Event>, n: nat, msg: Message)
    requires Run(states, events) && n < |states|
    ensures var s := states[n];
            var post := OnMessage(s.ctx, msg).post;
            && (post.Some? ==> post.value in s.tokens && !Outside(s.place))
            && (Outside(s.place) ==> OnMessage(s.ctx, msg) == Handled(s.ctx, None))
  {
    RunInv(states, events, n);
  }

  // ---------------------------------------------------------------- in place

  /** The context as the source keeps it, and the handlers that update it. */
  class Handshake {
    var inProgress: bool
    var phase: Phase
    var ok: bool
    const nonce: array<char>
    var nonceLen: nat
    const session: array<char>
    var sessionLen: nat
    var challengeSem: Option<nat>
    var resultSem: Option<nat>

    constructor ()
      ensures Valid() && fresh(nonce) && fresh(session)
      ensures View() == Start(Elsewhere, false).ctx
    {
      inProgress, phase, ok := false, Idle, false;
      nonce, nonceLen := new char[NONCE_CAPACITY], 0;
      session, sessionLen := new char[SESSION_CAPACITY], 0;
      challengeSem, resultSem := None, None;
    }

    ghost predicate Valid()
      reads this
    {
      && nonce != session && nonce.Length == NONCE_CAPACITY && session.Length == SESSION_CAPACITY
      && nonceLen < NONCE_CAPACITY && sessionLen < SESSION_CAPACITY
    }

    ghost function View(): Context
      requires Valid()
      reads this, nonce, session
    {
      Context(inProgress, phase, ok, nonce[..nonceLen], session[..sessionLen], challengeSem, resultSem)
    }

    /** `core_register_session_matches_locked`: equal lengths, then equal bytes. */
    method Matches(msg: Message) returns (same: bool)
      requires Valid()
      ensures same == SessionMatches(View(), msg)
    {
      if sessionLen == 0 || msg.Garbage? {
        return false;
      }
      var copy := Copied(msg.session, SESSION_CAPACITY);
      if copy.None? || |copy.value| != sessionLen {
        return false;
      }
      var i := 0;
      while i < sessionLen
        invariant i <= sessionLen
        invariant forall j | 0 <= j < i :: copy.value[j] == session[j]
      {
        if copy.value[i] != session[i] {
          assert View().session[i] != copy.value[i];
          return false;
        }
        i := i + 1;
      }
      assert copy.value == View().session;
      return true;
    }

    method Store(text: string)
      requires Valid() && |text| < NONCE_CAPACITY
      modifies this`nonceLen, nonce
      ensures Valid() && nonce[..nonceLen] == text
    {
      var i := 0;
      while i < |text|
        invariant i <= |text|
        invariant nonce[..i] == text[..i]
      {
        nonce[i] := text[i];
        i := i + 1;
        assert nonce[..i] == nonce[..i - 1] + [text[i - 1]];
      }
      nonceLen := |text|;
    }

    /** `core_handle_challenge`; the result is the semaphore to post. */
    method HandleChallenge(msg: Message) returns (post: Option<nat>)
      requires Valid()
      modifies this`ok, this`nonceLen, nonce
      ensures Valid()
      ensures Handled(View(), post) == OnChallenge(old(View()), msg)
      ensures if ChallengeCounts(old(View()), msg)
              then post == old(challengeSem)
                   && View() == if msg.nonce.Text? && |msg.nonce.chars| < 64 then old(View()).(ok := true, nonce := msg.nonce.chars)
                                else old(View()).(ok := false)
              else msg.Message? ==> View() == old(View()) && post == None
    {
      if !inProgress || phase != WaitChallenge {
        return None;
      }
      if msg.Garbage? {
        ok := false;
        return challengeSem;
      }
      var same := Matches(msg);
      if !same || nonceLen != 0 {
        return None;
      }
      var copy := Copied(msg.nonce, NONCE_CAPACITY);
      if copy.None? {
        ok := false;
        return challengeSem;
      }
      Store(copy.value);
      ok := true;
      post := challengeSem;
    }

    /** `core_handle_register_result`. */
    method HandleResult(msg: Message) returns (post: Option<nat>)
      requires Valid()
      modifies this`ok
      ensures Valid()
      ensures Handled(View(), post) == OnResult(old(View()), msg)
      ensures if ResultCounts(old(View()), msg)
              then post == old(resultSem) && View() == old(View()).(ok := msg.status == Text("ok"))
              else msg.Message? ==> View() == old(View()) && post == None
    {
      if !inProgress || phase != WaitResult {
        return None;
      }
      if msg.Garbage? {
        ok := false;
        return resultSem;
      }
      var same := Matches(msg);
      if !same {
        return None;
      }
      ok := Copied(msg.status, STATUS_CAPACITY) == Some("ok");
      post := resultSem;
    }
  }
}
