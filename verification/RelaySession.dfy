/** The relay client's goroutines (internal/relay/client.go:35-117, 137-217): one call of Connect by the user, one
    call of Stop at any moment or never, and every interleaving of the read loops, reconnections, ping loops and query
    loops that follow. A critical section under c.mu is one step. */
module RelaySession {
  import RelayClient
  import opened Sequences

  // Where a goroutine stands; the named action is the one its next step takes.
  datatype Pc =
    | Dial(again: bool)  // dial and register, called by reconnect if again and by the user otherwise
    | SetConn | SetRetries | SpawnReader | SpawnPing | SpawnQuery
    | CheckDone | Read | AskStopped | SpawnReconnect
    | FirstCheck | NextBackoff | Sleep(attempt: nat) | Check
    | Ping | Query
    | StopFlag | StopDone | StopConn
    | Ended

  // A delay is logged, when it begins and when it is over, with the value of c.maxRetries it is computed from.
  datatype Event = Connected | Delay(attempt: nat) | Slept(attempt: nat) | Redial | Stopped

  datatype Client = Client(
    connected: bool,  // c.conn is not nil
    stopped: bool,
    closed: bool,     // c.done
    retries: nat,     // c.maxRetries
    threads: seq<Pc>,
    log: seq<Event>
  )

  const START := Client(false, false, false, 0, [Dial(false), StopFlag], [])

  predicate IsConnected(c: Client) {
    c.connected && !c.stopped
  }

  // The next control point. The outcome ok is the environment's: a dial, read or send that works, a tick of a ticker.
  function Goto(c: Client, pc: Pc, ok: bool): Pc {
    match pc
    case Dial(again) => if ok then SetConn else if again then NextBackoff else Ended
    case SetConn => SetRetries
    case SetRetries => SpawnReader
    case SpawnReader => SpawnPing
    case SpawnPing => SpawnQuery
    case SpawnQuery => Ended
    case CheckDone => if c.closed then Ended else Read
    case Read => if ok then CheckDone else AskStopped
    case AskStopped => if c.stopped then Ended else SpawnReconnect
    case SpawnReconnect => Ended
    case FirstCheck => if c.stopped then Ended else NextBackoff
    case NextBackoff => Sleep(c.retries + 1)
    case Sleep(_) => Check
    case Check => if c.stopped then Ended else Dial(true)
    case Ping => if c.closed && !ok then Ended else Ping
    case Query => if c.closed && !ok then Ended else Query
    case StopFlag => StopDone
    case StopDone => StopConn
    case StopConn => Ended
    case Ended => Ended
  }

  function Spawned(pc: Pc): seq<Pc> {
    match pc
    case SpawnReader => [CheckDone]
    case SpawnPing => [Ping]
    case SpawnQuery => [Query]
    case SpawnReconnect => [FirstCheck]
    case _ => []
  }

  function Retry(c: Client, pc: Pc): nat {
    if pc.SetRetries? then 0 else if pc.NextBackoff? then c.retries + 1 else c.retries
  }

  function Logged(c: Client, pc: Pc): seq<Event> {
    match pc
    case SetConn => [Connected]
    case NextBackoff => [Delay(c.retries + 1)]
    case Sleep(attempt) => [Slept(attempt)]
    case Dial(again) => if again then [Redial] else []
    case StopFlag => [Stopped]
    case _ => []
  }

  function Step(c: Client, i: nat, ok: bool): Client
    requires i < |c.threads|
  {
    var pc := c.threads[i];
    Client(c.connected || pc.SetConn?, c.stopped || pc.StopFlag?, c.closed || pc.StopDone?, Retry(c, pc),
           c.threads[i := Goto(c, pc, ok)] + Spawned(pc), c.log + Logged(c, pc))
  }

  // Who steps, and the environment's outcome for that step.
  datatype Move = Move(thread: nat, ok: bool)

  // The client after a run; a move of a goroutine that does not exist is no move.
  function After(run: seq<Move>): (c: Client)
    ensures |c.threads| > 1
  {
    if run == [] then START
    else
      var b, m := After(run[..|run| - 1]), run[|run| - 1];
      if m.thread < |b.threads| then Step(b, m.thread, m.ok) else b
  }

  // ---------------------------------------------------------------- the session token

  // The goroutine that may still set c.conn and c.maxRetries, or start another that may.
  predicate Holds(pc: Pc) {
    match pc
    case Dial(_) | SetConn | SetRetries | SpawnReader => true
    case CheckDone | Read | AskStopped | SpawnReconnect => true
    case FirstCheck | NextBackoff | Sleep(_) | Check => true
    case _ => false
  }

  ghost predicate OneHolder(ts: seq<Pc>) {
    forall i, j :: 0 <= i < j < |ts| ==> !(Holds(ts[i]) && Holds(ts[j]))
  }

  ghost predicate SomeHolder(ts: seq<Pc>) {
    exists i :: 0 <= i < |ts| && Holds(ts[i])
  }

  ghost predicate Anyone(ts: seq<Pc>, pc: Pc) {
    exists i :: 0 <= i < |ts| && ts[i] == pc
  }

  // Only a holder passes the token on, to itself or to the goroutine it starts but not to both.
  lemma TokenGoto(c: Client, pc: Pc, ok: bool)
    ensures Holds(Goto(c, pc, ok)) ==> Holds(pc) && (Spawned(pc) == [] || !Holds(Spawned(pc)[0]))
    ensures Spawned(pc) != [] && Holds(Spawned(pc)[0]) ==> Holds(pc)
    ensures |Spawned(pc)| <= 1
  {
  }

  lemma TokenStep(c: Client, i: nat, ok: bool)
    requires i < |c.threads| && OneHolder(c.threads)
    ensures OneHolder(Step(c, i, ok).threads)
  {
    TokenGoto(c, c.threads[i], ok);
  }

  // ---------------------------------------------------------------- the log

  // Delays since the last successful connection.
  function DelaysSince(log: seq<Event>): nat {
    if log == [] || log[|log| - 1].Connected? then 0
    else DelaysSince(log[..|log| - 1]) + if log[|log| - 1].Delay? then 1 else 0
  }

  function Connects(log: seq<Event>): nat {
    if log == [] then 0
    else Connects(log[..|log| - 1]) + if log[|log| - 1].Connected? then 1 else 0
  }

  // Delays and connections logged after Stop.
  function AfterStop(log: seq<Event>): nat {
    if log == [] then 0
    else AfterStop(log[..|log| - 1]) + if Stopped in log[..|log| - 1] && Counts(log[|log| - 1]) then 1 else 0
  }

  predicate Counts(e: Event) {
    e.Delay? || e.Connected?
  }

  // The delay at k is the backoff for the attempts made since the connection before it.
  ghost predicate DelayAt(log: seq<Event>, k: nat)
    requires k < |log|
  {
    log[k].Delay? ==> log[k].attempt == DelaysSince(log[..k]) + 1
  }

  ghost predicate DelaysGood(log: seq<Event>) {
    forall k :: 0 <= k < |log| ==> DelayAt(log, k)
  }

  lemma LogAppend(log: seq<Event>, e: Event)
    ensures DelaysSince(log + [e]) == if e.Connected? then 0 else DelaysSince(log) + if e.Delay? then 1 else 0
    ensures Connects(log + [e]) == Connects(log) + if e.Connected? then 1 else 0
    ensures AfterStop(log + [e]) == AfterStop(log) + if Stopped in log && Counts(e) then 1 else 0
  {
    assert (log + [e])[..|log|] == log;
  }

  lemma DelaysGoodAppend(log: seq<Event>, e: Event)
    requires DelaysGood(log)
    requires e.Delay? ==> e.attempt == DelaysSince(log) + 1
    ensures DelaysGood(log + [e])
  {
    var more := log + [e];
    assert more[..|log|] == log;
    forall k | 0 <= k < |more|
      ensures DelayAt(more, k)
    {
      if k < |log| {
        assert DelayAt(log, k) && more[..k] == log[..k];
      }
    }
  }

  // What reconnecting has logged since the last connection.
  function Trail(log: seq<Event>): seq<Event> {
    if log == [] || log[|log| - 1].Connected? then []
    else if log[|log| - 1].Stopped? then Trail(log[..|log| - 1])
    else Trail(log[..|log| - 1]) + [log[|log| - 1]]
  }

  lemma TrailAppend(log: seq<Event>, e: Event)
    ensures Trail(log + [e]) == if e.Connected? then [] else if e.Stopped? then Trail(log) else Trail(log) + [e]
  {
    assert (log + [e])[..|log|] == log;
  }

  // It goes round and round: the k-th delay begins, is over, and is followed by the k-th redial.
  predicate InTurn(trail: seq<Event>) {
    forall j :: 0 <= j < |trail| ==>
      trail[j] == if j % 3 == 0 then Delay(j / 3 + 1) else if j % 3 == 1 then Slept(j / 3 + 1) else Redial
  }

  // Where the holder of the session stands in this round.
  predicate TurnOf(pc: Pc, trail: seq<Event>, retries: nat) {
    match pc
    case NextBackoff => |trail| % 3 == 0 && retries == |trail| / 3
    case Sleep(attempt) => |trail| % 3 == 1 && attempt == retries == |trail| / 3 + 1
    case Check => |trail| % 3 == 2 && retries == |trail| / 3 + 1
    case Dial(again) => if again then |trail| % 3 == 2 && retries == |trail| / 3 + 1 else trail == [] && retries == 0
    case SetConn => true
    case SetRetries => trail == []
    case _ => trail == [] && retries == 0
  }

  ghost predicate TurnInv(c: Client) {
    && InTurn(Trail(c.log))
    && forall i :: 0 <= i < |c.threads| && Holds(c.threads[i]) ==> TurnOf(c.threads[i], Trail(c.log), c.retries)
  }

  // ---------------------------------------------------------------- retries, stop and connection

  predicate InSession(pc: Pc) {
    Holds(pc) && pc != Dial(false) && pc != SetConn
  }

  // The goroutine may still log a delay or a connection although Stop was called.
  predicate Eager(pc: Pc) {
    pc.Dial? || pc.SetConn? || pc.NextBackoff?
  }

  ghost predicate RetriesInv(c: Client) {
    && (if Anyone(c.threads, SetRetries) then DelaysSince(c.log) == 0 else c.retries == DelaysSince(c.log))
    && DelaysGood(c.log)
  }

  predicate Stopping(pc: Pc) {
    pc.StopFlag? || pc.StopDone? || pc.StopConn?
  }

  // Stop runs once: its three steps, in order.
  ghost predicate StopInv(c: Client) {
    && |c.threads| > 1
    && (forall i :: 0 <= i < |c.threads| && i != 1 ==> !Stopping(c.threads[i]))
    && (Stopping(c.threads[1]) || c.threads[1].Ended?)
    && (c.threads[1].StopFlag? <==> !c.stopped)
    && (c.closed ==> c.threads[1].StopConn? || c.threads[1].Ended?)
    && (c.stopped <==> Stopped in c.log)
  }

  ghost predicate LateInv(c: Client) {
    && AfterStop(c.log) <= 1
    && (forall i :: 0 <= i < |c.threads| && Eager(c.threads[i]) ==> AfterStop(c.log) == 0)
  }

  ghost predicate ConnInv(c: Client) {
    && |c.threads| > 1
    && (c.connected <==> Connects(c.log) > 0)
    && (c.connected ==> c.threads[0] != Dial(false))
    && (forall i :: 0 <= i < |c.threads| && c.threads[i] == Dial(false) ==> i == 0)
    && (forall i :: 0 <= i < |c.threads| && InSession(c.threads[i]) ==> c.connected)
  }

  ghost predicate TokenInv(c: Client) {
    c.connected && !c.stopped ==> SomeHolder(c.threads)
  }

  // ---------------------------------------------------------------- the loops each connection starts

  function One(b: bool): nat {
    if b then 1 else 0
  }

  function Spawns(pc: Pc, p: Pc -> bool): nat {
    One(|Spawned(pc)| == 1 && p(Spawned(pc)[0]))
  }

  lemma CountStep(c: Client, i: nat, ok: bool, p: Pc -> bool)
    requires i < |c.threads|
    ensures var pc := c.threads[i];
            Count(Step(c, i, ok).threads, p) + One(p(pc))
            == Count(c.threads, p) + One(p(Goto(c, pc, ok))) + Spawns(pc, p)
  {
    var pc := c.threads[i];
    var ts := c.threads[i := Goto(c, pc, ok)];
    CountUpdate(c.threads, i, Goto(c, pc, ok), p);
    if Spawned(pc) != [] {
      assert (ts + Spawned(pc))[..|ts|] == ts;
    } else {
      assert ts + Spawned(pc) == ts;
    }
  }

  // A ping loop that runs, or that a connection has still to start.
  predicate PingDue(pc: Pc) {
    pc.SetRetries? || pc.SpawnReader? || pc.SpawnPing? || pc.Ping?
  }

  predicate QueryDue(pc: Pc) {
    pc.SetRetries? || pc.SpawnReader? || pc.SpawnPing? || pc.SpawnQuery? || pc.Query?
  }

  ghost predicate LoopsInv(c: Client) {
    && Count(c.threads, PingDue) <= Connects(c.log)
    && Count(c.threads, QueryDue) <= Connects(c.log)
    && (!c.closed ==> Count(c.threads, PingDue) == Connects(c.log) == Count(c.threads, QueryDue))
  }

  lemma LoggedFacts(c: Client, i: nat, ok: bool)
    requires i < |c.threads|
    ensures var e := Logged(c, c.threads[i]);
            var log := Step(c, i, ok).log;
            && (e == [] ==> log == c.log)
            && (e != [] ==> log == c.log + [e[0]])
  {
  }

  lemma Resetting(c: Client, i: nat, ok: bool)
    requires i < |c.threads| && OneHolder(c.threads)
    ensures Anyone(Step(c, i, ok).threads, SetRetries) <==>
              c.threads[i].SetConn? || (!c.threads[i].SetRetries? && Anyone(c.threads, SetRetries))
  {
    var d, pc := Step(c, i, ok), c.threads[i];
    if pc.SetConn? {
      assert d.threads[i] == SetRetries;
    } else if !pc.SetRetries? && Anyone(c.threads, SetRetries) {
      var j :| 0 <= j < |c.threads| && c.threads[j] == SetRetries;
      assert d.threads[j] == SetRetries;
    }
  }

  lemma RetriesStep(c: Client, i: nat, ok: bool)
    requires i < |c.threads| && OneHolder(c.threads) && RetriesInv(c)
    ensures RetriesInv(Step(c, i, ok))
  {
    var pc := c.threads[i];
    var e := Logged(c, pc);
    LoggedFacts(c, i, ok);
    Resetting(c, i, ok);
    assert pc.NextBackoff? ==> !Anyone(c.threads, SetRetries);
    if pc.SetRetries? {
      assert Anyone(c.threads, SetRetries);
    }
    if e != [] {
      LogAppend(c.log, e[0]);
      DelaysGoodAppend(c.log, e[0]);
    }
  }

  // What a step of the holder makes of the trail, and where it then stands.
  lemma OwnTurn(c: Client, pc: Pc, ok: bool, trail: seq<Event>)
    requires Holds(pc) && InTurn(trail) && TurnOf(pc, trail, c.retries)
    ensures var more := if pc.SetConn? then [] else trail + Logged(c, pc);
            && InTurn(more)
            && (Holds(Goto(c, pc, ok)) ==> TurnOf(Goto(c, pc, ok), more, Retry(c, pc)))
            && (Spawned(pc) != [] && Holds(Spawned(pc)[0]) ==> TurnOf(Spawned(pc)[0], more, Retry(c, pc)))
  {
  }

  // Nobody else touches the trail or the attempts.
  lemma OthersTurn(c: Client, pc: Pc)
    requires !Holds(pc)
    ensures Retry(c, pc) == c.retries && (Logged(c, pc) == [] || Logged(c, pc) == [Stopped])
    ensures Spawned(pc) != [] ==> !Holds(Spawned(pc)[0])
  {
  }

  lemma TrailStep(c: Client, i: nat, ok: bool)
    requires i < |c.threads|
    ensures Trail(Step(c, i, ok).log) == if c.threads[i].SetConn? then []
                                         else if c.threads[i].StopFlag? then Trail(c.log)
                                         else Trail(c.log) + Logged(c, c.threads[i])
  {
    LoggedFacts(c, i, ok);
    if Logged(c, c.threads[i]) != [] {
      TrailAppend(c.log, Logged(c, c.threads[i])[0]);
    }
  }

  lemma TurnStep(c: Client, i: nat, ok: bool)
    requires i < |c.threads| && OneHolder(c.threads) && TurnInv(c)
    ensures TurnInv(Step(c, i, ok))
  {
    var d, pc := Step(c, i, ok), c.threads[i];
    TrailStep(c, i, ok);
    TokenGoto(c, pc, ok);
    if Holds(pc) {
      OwnTurn(c, pc, ok, Trail(c.log));
    } else {
      OthersTurn(c, pc);
    }
    forall j | 0 <= j < |d.threads| && Holds(d.threads[j])
      ensures TurnOf(d.threads[j], Trail(d.log), d.retries)
    {
      if j < |c.threads| && j != i {
        assert !Holds(pc);
      }
    }
  }

  lemma StopStep(c: Client, i: nat, ok: bool)
    requires i < |c.threads| && StopInv(c)
    ensures StopInv(Step(c, i, ok))
  {
  }

  lemma NothingBeforeStop(log: seq<Event>)
    requires Stopped !in log
    ensures AfterStop(log) == 0
  {
  }

  lemma LateStep(c: Client, i: nat, ok: bool)
    requires i < |c.threads| && OneHolder(c.threads) && StopInv(c) && LateInv(c)
    ensures LateInv(Step(c, i, ok))
  {
    var d, pc := Step(c, i, ok), c.threads[i];
    var e := Logged(c, pc);
    LoggedFacts(c, i, ok);
    if e != [] {
      LogAppend(c.log, e[0]);
    }
    if !c.stopped {
      NothingBeforeStop(c.log);
    }
    forall j | 0 <= j < |d.threads| && Eager(d.threads[j])
      ensures AfterStop(d.log) == 0
    {
      if j < |c.threads| && j != i {
        assert Eager(c.threads[j]) && Holds(c.threads[j]);
        assert !Holds(pc);
      }
    }
  }

  lemma ConnectsStep(c: Client, i: nat, ok: bool)
    requires i < |c.threads|
    ensures Connects(Step(c, i, ok).log) == Connects(c.log) + One(c.threads[i].SetConn?)
  {
    var e := Logged(c, c.threads[i]);
    LoggedFacts(c, i, ok);
    if e != [] {
      LogAppend(c.log, e[0]);
    }
  }

  lemma SessionGoto(c: Client, pc: Pc, ok: bool)
    ensures InSession(Goto(c, pc, ok)) ==> InSession(pc) || pc.SetConn?
    ensures Spawned(pc) != [] && InSession(Spawned(pc)[0]) ==> InSession(pc)
    ensures Goto(c, pc, ok) != Dial(false) && Dial(false) !in Spawned(pc)
  {
  }

  lemma FirstDial(c: Client, i: nat, ok: bool)
    requires i < |c.threads| && OneHolder(c.threads) && ConnInv(c)
    ensures Step(c, i, ok).connected ==> Step(c, i, ok).threads[0] != Dial(false)
    ensures forall j :: 0 <= j < |Step(c, i, ok).threads| && Step(c, i, ok).threads[j] == Dial(false) ==> j == 0
  {
    SessionGoto(c, c.threads[i], ok);
    if c.threads[i].SetConn? && i != 0 {
      assert !Holds(c.threads[0]);
    }
  }

  lemma ConnStep(c: Client, i: nat, ok: bool)
    requires i < |c.threads| && OneHolder(c.threads) && ConnInv(c)
    ensures ConnInv(Step(c, i, ok))
  {
    var d, pc := Step(c, i, ok), c.threads[i];
    ConnectsStep(c, i, ok);
    FirstDial(c, i, ok);
    forall j | 0 <= j < |d.threads| && InSession(d.threads[j])
      ensures d.connected
    {
      SessionGoto(c, pc, ok);
      assert j < |c.threads| && j != i ==> InSession(c.threads[j]);
    }
  }

  lemma TokenKept(c: Client, i: nat, ok: bool)
    requires i < |c.threads| && TokenInv(c) && ConnInv(c) && (c.closed ==> c.stopped)
    ensures TokenInv(Step(c, i, ok))
  {
    var d := Step(c, i, ok);
    if c.connected && !c.stopped {
      var h :| 0 <= h < |c.threads| && Holds(c.threads[h]);
      if h != i {
        assert Holds(d.threads[h]);
      } else if Spawned(c.threads[i]) != [] {
        assert Holds(d.threads[|c.threads|]);
      } else {
        assert Holds(d.threads[i]);
      }
    } else if c.threads[i].SetConn? {
      assert Holds(d.threads[i]);
    }
  }

  // A step keeps the loops that run or are due, but for a new connection and for a loop that ends after Stop.
  lemma DueStep(c: Client, pc: Pc, ok: bool)
    ensures var now, then_ := One(PingDue(pc)), One(PingDue(Goto(c, pc, ok))) + Spawns(pc, PingDue);
            then_ <= now + One(pc.SetConn?) && (!c.closed ==> then_ == now + One(pc.SetConn?))
    ensures var now, then_ := One(QueryDue(pc)), One(QueryDue(Goto(c, pc, ok))) + Spawns(pc, QueryDue);
            then_ <= now + One(pc.SetConn?) && (!c.closed ==> then_ == now + One(pc.SetConn?))
  {
  }

  lemma LoopsStep(c: Client, i: nat, ok: bool)
    requires i < |c.threads| && LoopsInv(c)
    ensures LoopsInv(Step(c, i, ok))
  {
    ConnectsStep(c, i, ok);
    DueStep(c, c.threads[i], ok);
    CountStep(c, i, ok, PingDue);
    CountStep(c, i, ok, QueryDue);
  }

  ghost predicate Inv(c: Client) {
    && OneHolder(c.threads) && RetriesInv(c) && TurnInv(c) && StopInv(c) && LateInv(c) && ConnInv(c) && TokenInv(c)
    && LoopsInv(c)
  }

  lemma InvStep(c: Client, i: nat, ok: bool)
    requires i < |c.threads| && Inv(c)
    ensures Inv(Step(c, i, ok))
  {
    TokenStep(c, i, ok);
    RetriesStep(c, i, ok);
    TurnStep(c, i, ok);
    StopStep(c, i, ok);
    LateStep(c, i, ok);
    ConnStep(c, i, ok);
    TokenKept(c, i, ok);
    LoopsStep(c, i, ok);
  }

  lemma StartInv()
    ensures Inv(START)
  {
    assert START.threads[..1][..0] == [];
  }

  lemma {:induction false} RunInv(run: seq<Move>)
    ensures Inv(After(run))
  {
    if run == [] {
      StartInv();
    } else {
      var b, m := After(run[..|run| - 1]), run[|run| - 1];
      RunInv(run[..|run| - 1]);
      if m.thread < |b.threads| {
        InvStep(b, m.thread, m.ok);
      }
    }
  }

  // ---------------------------------------------------------------- results

  /** Never two sessions: at most one goroutine reads from the connection or reconnects, and from the first connection
      until Stop there is always one. */
  lemma SingleSession(run: seq<Move>)
    ensures OneHolder(After(run).threads)
    ensures After(run).connected && !After(run).stopped ==> SomeHolder(After(run).threads)
  {
    RunInv(run);
  }

  // How long a delay in the log lasts, as nextBackoff computes it.
  function Nanos(e: Event): int
    requires e.Delay? && e.attempt > 0
  {
    RelayClient.Backoff(e.attempt)
  }

  // A delay in the log is the documented one exactly for the first 34 attempts since the connection before it and for
  // the lucky ones.
  ghost predicate OnSchedule(log: seq<Event>, k: nat)
    requires k < |log|
  {
    var attempt := DelaysSince(log[..k]) + 1;
    log[k].Delay? ==>
      && log[k].attempt > 0
      && (Nanos(log[k]) == RelayClient.Documented(attempt) <==> attempt <= 34 || RelayClient.Lucky(attempt))
  }

  lemma Schedule(log: seq<Event>, k: nat)
    requires k < |log| && DelayAt(log, k)
    ensures OnSchedule(log, k)
  {
    RelayClient.BackoffExactly(DelaysSince(log[..k]) + 1);
  }

  /** Over every run, each delay is the documented one exactly when its attempt, counted from the last connection, is
      one of the first 34 or a lucky one. */
  lemma DelaysDocumented(run: seq<Move>)
    ensures var log := After(run).log; forall k :: 0 <= k < |log| ==> OnSchedule(log, k)
  {
    var log := After(run).log;
    assert DelaysGood(log) by {
      RunInv(run);
    }
    forall k | 0 <= k < |log|
      ensures OnSchedule(log, k)
    {
      assert DelayAt(log, k);
      Schedule(log, k);
    }
  }

  // The log after a run grows by what each move logs.
  lemma {:induction false} LogPrefix(run: seq<Move>, n: nat) returns (m: nat)
    requires n <= |After(run).log|
    ensures m <= |run| && After(run[..m]).log == After(run).log[..n]
  {
    if n == |After(run).log| {
      m := |run|;
      assert run[..m] == run && After(run).log[..n] == After(run).log;
    } else {
      var b, last := After(run[..|run| - 1]), run[|run| - 1];
      if last.thread < |b.threads| {
        LoggedFacts(b, last.thread, last.ok);
      }
      m := LogPrefix(run[..|run| - 1], n);
      assert run[..|run| - 1][..m] == run[..m] && b.log[..n] == After(run).log[..n];
    }
  }

  /** No dial without its delay: over every run, before each redial the events of reconnecting since the last connection
      are the first delay, which was slept to its end, the first redial, the second delay, and so on, and last the
      delay of this redial. So redial k comes right after a delay of Backoff(k), the k-th one. */
  lemma RedialsAreDelayed(run: seq<Move>, j: nat)
    requires j < |After(run).log| && After(run).log[j] == Redial
    ensures var trail := Trail(After(run).log[..j]);
            && |trail| % 3 == 2
            && forall i :: 0 <= i < |trail| ==>
                 trail[i] == if i % 3 == 0 then Delay(i / 3 + 1) else if i % 3 == 1 then Slept(i / 3 + 1) else Redial
  {
    var log := After(run).log;
    AlwaysInTurn(run, j);
    AlwaysInTurn(run, j + 1);
    assert log[..j + 1] == log[..j] + [log[j]];
    TrailAppend(log[..j], log[j]);
    RedialNext(Trail(log[..j]));
  }

  lemma AlwaysInTurn(run: seq<Move>, n: nat)
    requires n <= |After(run).log|
    ensures InTurn(Trail(After(run).log[..n]))
  {
    var m := LogPrefix(run, n);
    RunInv(run[..m]);
  }

  lemma RedialNext(trail: seq<Event>)
    requires InTurn(trail + [Redial])
    ensures |trail| % 3 == 2 && InTurn(trail)
  {
    assert (trail + [Redial])[|trail|] == Redial;
    assert forall j :: 0 <= j < |trail| ==> (trail + [Redial])[j] == trail[j];
  }

  lemma AfterMore(run: seq<Move>, m: Move)
    requires m.thread < |After(run).threads|
    ensures After(run + [m]) == Step(After(run), m.thread, m.ok)
  {
    assert (run + [m])[..|run|] == run;
  }

  /** After Stop at most one more delay or connection happens. */
  lemma StopIsFinal(run: seq<Move>)
    ensures AfterStop(After(run).log) <= 1
  {
    RunInv(run);
  }

  const STOP := Move(1, true)  // the step that sets the flag, if it is not set yet

  // No goroutine is at a dial, about to set a connection, or about to compute a delay.
  ghost predicate Calm(ts: seq<Pc>) {
    forall i :: 0 <= i < |ts| ==> !Eager(ts[i])
  }

  // In this continuation nothing happens after Stop.
  ghost predicate NothingLate(run: seq<Move>, more: seq<Move>) {
    AfterStop(After(run + [STOP] + more).log) == 0
  }

  lemma CalmStep(c: Client, i: nat, ok: bool)
    requires i < |c.threads| && StopInv(c) && c.stopped && Calm(c.threads)
    ensures Calm(Step(c, i, ok).threads) && AfterStop(Step(c, i, ok).log) == AfterStop(c.log)
  {
    LoggedFacts(c, i, ok);
    if Logged(c, c.threads[i]) != [] {
      LogAppend(c.log, Logged(c, c.threads[i])[0]);
    }
  }

  lemma StopNow(run: seq<Move>)
    requires !After(run).stopped
    ensures After(run + [STOP]) == Step(After(run), 1, true)
    ensures After(run + [STOP]).stopped && After(run + [STOP]).log == After(run).log + [Stopped]
    ensures After(run + [STOP]).threads == After(run).threads[1 := StopDone]
    ensures AfterStop(After(run + [STOP]).log) == 0 && After(run).threads[1] == StopFlag
  {
    RunInv(run);
    AfterMore(run, STOP);
    NothingBeforeStop(After(run).log);
    LogAppend(After(run).log, Stopped);
  }

  lemma {:induction false} CalmStays(run: seq<Move>, more: seq<Move>)
    requires !After(run).stopped && Calm(After(run).threads)
    ensures var c := After(run + [STOP] + more); c.stopped && Calm(c.threads) && AfterStop(c.log) == 0
  {
    if more == [] {
      StopNow(run);
      assert run + [STOP] + more == run + [STOP];
    } else {
      var front, m := more[..|more| - 1], more[|more| - 1];
      assert run + [STOP] + more == run + [STOP] + front + [m];
      CalmStays(run, front);
      CalmMove(run + [STOP] + front, m);
    }
  }

  lemma CalmMove(run: seq<Move>, m: Move)
    requires After(run).stopped && Calm(After(run).threads)
    ensures After(run + [m]).stopped && Calm(After(run + [m]).threads)
    ensures AfterStop(After(run + [m]).log) == AfterStop(After(run).log)
  {
    assert (run + [m])[..|run|] == run;
    if m.thread < |After(run).threads| {
      RunInv(run);
      CalmStep(After(run), m.thread, m.ok);
    }
  }

  // Goroutine i logs a delay or a connection.
  lemma LateMove(run: seq<Move>, i: nat)
    requires After(run).stopped && Stopped in After(run).log && AfterStop(After(run).log) == 0
    requires i < |After(run).threads| && (After(run).threads[i].SetConn? || After(run).threads[i].NextBackoff?)
    ensures AfterStop(After(run + [Move(i, true)]).log) == 1
  {
    var c := After(run);
    AfterMore(run, Move(i, true));
    LoggedFacts(c, i, true);
    LogAppend(c.log, Logged(c, c.threads[i])[0]);
  }

  lemma DialMove(run: seq<Move>, i: nat)
    requires i < |After(run).threads| && After(run).threads[i].Dial?
    ensures var c := After(run + [Move(i, true)]);
            && c.stopped == After(run).stopped && i < |c.threads| && c.threads[i] == SetConn
            && After(run).log <= c.log && AfterStop(c.log) == AfterStop(After(run).log)
  {
    var c := After(run);
    AfterMore(run, Move(i, true));
    LoggedFacts(c, i, true);
    if c.threads[i].again {
      LogAppend(c.log, Redial);
    }
  }

  lemma DialThenLate(run: seq<Move>, i: nat)
    requires After(run).stopped && Stopped in After(run).log && AfterStop(After(run).log) == 0
    requires i < |After(run).threads| && After(run).threads[i].Dial?
    ensures AfterStop(After(run + [Move(i, true), Move(i, true)]).log) == 1
  {
    var m := Move(i, true);
    DialMove(run, i);
    LateMove(run + [m], i);
    assert run + [m, m] == run + [m] + [m];
  }

  // What goroutine i can still do after Stop.
  lemma SomethingLate(run: seq<Move>, i: nat) returns (more: seq<Move>)
    requires !After(run).stopped && i < |After(run).threads| && Eager(After(run).threads[i])
    ensures !NothingLate(run, more)
  {
    StopNow(run);
    if After(run).threads[i].Dial? {
      more := [Move(i, true), Move(i, true)];
      DialThenLate(run + [STOP], i);
    } else {
      more := [Move(i, true)];
      LateMove(run + [STOP], i);
    }
  }

  /** Nothing at all happens after Stop, however the run goes on, if and only if at the moment of Stop no goroutine is
      at a dial, about to set a connection, or about to compute a delay. */
  lemma StopIsImmediate(run: seq<Move>)
    requires !After(run).stopped
    ensures (forall more :: NothingLate(run, more)) <==> Calm(After(run).threads)
  {
    if Calm(After(run).threads) {
      forall more
        ensures NothingLate(run, more)
      {
        CalmStays(run, more);
      }
    } else {
      var i :| 0 <= i < |After(run).threads| && Eager(After(run).threads[i]);
      var more := SomethingLate(run, i);
    }
  }

  // ---------------------------------------------------------------- everything ends

  // A bound on the steps of a goroutine once c.done is closed, and of those it starts, not counting ticks.
  function Left(pc: Pc): nat {
    match pc
    case Dial(_) => 9
    case SetConn => 8
    case SetRetries => 7
    case SpawnReader => 6
    case SpawnPing => 4
    case SpawnQuery => 2
    case Read => 2
    case CheckDone => 1
    case AskStopped => 1
    case SpawnReconnect => 2
    case FirstCheck => 1
    case NextBackoff => 3
    case Sleep(_) => 2
    case Check => 1
    case Ping => 1
    case Query => 1
    case StopFlag => 3
    case StopDone => 2
    case StopConn => 1
    case Ended => 0
  }

  function AllLeft(ts: seq<Pc>): nat {
    if ts == [] then 0 else AllLeft(ts[..|ts| - 1]) + Left(ts[|ts| - 1])
  }

  lemma {:induction false} LeftUpdate(ts: seq<Pc>, i: nat, pc: Pc)
    requires i < |ts|
    ensures AllLeft(ts[i := pc]) == AllLeft(ts) - Left(ts[i]) + Left(pc)
  {
    var k := |ts| - 1;
    if i == k {
      assert ts[i := pc][..k] == ts[..k];
    } else {
      assert ts[i := pc][..k] == ts[..k][i := pc];
      LeftUpdate(ts[..k], i, pc);
    }
  }

  lemma LeftSpawn(ts: seq<Pc>, more: seq<Pc>)
    requires |more| <= 1
    ensures AllLeft(ts + more) == AllLeft(ts) + if more == [] then 0 else Left(more[0])
  {
    if more == [] {
      assert ts + more == ts;
    } else {
      assert (ts + more)[..|ts|] == ts;
    }
  }

  lemma {:induction false} NothingLeft(ts: seq<Pc>)
    ensures AllLeft(ts) == 0 <==> forall i :: 0 <= i < |ts| ==> ts[i].Ended?
  {
    if ts != [] {
      NothingLeft(ts[..|ts| - 1]);
      assert forall i :: 0 <= i < |ts| - 1 ==> ts[..|ts| - 1][i] == ts[i];
    }
  }

  // A tick of a ticker, which the select may prefer to the closed channel.
  predicate Ticks(c: Client, m: Move) {
    m.thread < |c.threads| && (c.threads[m.thread].Ping? || c.threads[m.thread].Query?) && m.ok
  }

  lemma OwnLeft(c: Client, pc: Pc, ok: bool)
    requires c.closed && c.stopped && !pc.Ended? && !((pc.Ping? || pc.Query?) && ok)
    ensures |Spawned(pc)| <= 1
    ensures Left(Goto(c, pc, ok)) + (if Spawned(pc) == [] then 0 else Left(Spawned(pc)[0])) < Left(pc)
  {
  }

  lemma LeftStep(c: Client, i: nat, ok: bool)
    requires c.closed && c.stopped && i < |c.threads| && !c.threads[i].Ended? && !Ticks(c, Move(i, ok))
    ensures AllLeft(Step(c, i, ok).threads) < AllLeft(c.threads)
  {
    var pc := c.threads[i];
    var ts := c.threads[i := Goto(c, pc, ok)];
    OwnLeft(c, pc, ok);
    LeftUpdate(c.threads, i, Goto(c, pc, ok));
    LeftSpawn(ts, Spawned(pc));
    assert Step(c, i, ok).threads == ts + Spawned(pc);
  }

  lemma TickStep(c: Client, i: nat)
    requires i < |c.threads| && Ticks(c, Move(i, true))
    ensures Step(c, i, true) == c
  {
    assert c.threads[i := c.threads[i]] == c.threads;
  }

  /** Stop ends everything: once c.done is closed, every step of a goroutine that has not ended, but for ticks, leaves
      less to do, whatever the outcomes; and nothing is left exactly when all goroutines have ended. */
  lemma StoppedRunsEnd(run: seq<Move>, m: Move)
    requires After(run).closed && m.thread < |After(run).threads| && !After(run).threads[m.thread].Ended?
    ensures !Ticks(After(run), m) ==> AllLeft(After(run + [m]).threads) < AllLeft(After(run).threads)
    ensures Ticks(After(run), m) ==> After(run + [m]) == After(run)
    ensures var ts := After(run).threads; AllLeft(ts) == 0 <==> forall i :: 0 <= i < |ts| ==> ts[i].Ended?
  {
    var c := After(run);
    RunInv(run);
    AfterMore(run, m);
    NothingLeft(c.threads);
    if Ticks(c, m) {
      TickStep(c, m.thread);
    } else {
      LeftStep(c, m.thread, m.ok);
    }
  }

  const DIALED := Client(false, false, false, 0, [SetConn, StopFlag], [])
  const FLAGGED := Client(false, true, false, 0, [SetConn, StopDone], [Stopped])
  const CLOSED := Client(false, true, true, 0, [SetConn, StopConn], [Stopped])
  const RETURNED := Client(false, true, true, 0, [SetConn, Ended], [Stopped])

  lemma OvertakingSteps()
    ensures Step(START, 0, true) == DIALED && Step(DIALED, 1, true) == FLAGGED
    ensures Step(FLAGGED, 1, true) == CLOSED && Step(CLOSED, 1, true) == RETURNED
    ensures Step(RETURNED, 0, true).log == [Stopped, Connected]
  {
  }

  /** The bound is met: Stop can run to its end while a connection is on its way, so that it finds none to close, and
      the connection is made after that. */
  lemma StopOvertakes() returns (run: seq<Move>)
    ensures After(run) == RETURNED && After(run + [Move(0, true)]).log == [Stopped, Connected]
  {
    OvertakingSteps();
    AfterMore([], Move(0, true));
    run := [] + [Move(0, true)];
    AfterMore(run, Move(1, true));
    run := run + [Move(1, true)];
    AfterMore(run, Move(1, true));
    run := run + [Move(1, true)];
    AfterMore(run, Move(1, true));
    run := run + [Move(1, true)];
    AfterMore(run, Move(0, true));
  }

  predicate IsPing(pc: Pc) {
    pc.Ping?
  }

  predicate IsQuery(pc: Pc) {
    pc.Query?
  }

  // A goroutine between setting the connection and starting its last loop.
  predicate Starting(pc: Pc) {
    pc.SetRetries? || pc.SpawnReader? || pc.SpawnPing? || pc.SpawnQuery?
  }

  /** A connection's ping and query loops outlive it: until Stop, with no connection half made, as many of each run as
      connections were ever made. */
  lemma LoopsPileUp(run: seq<Move>)
    requires !After(run).closed
    requires forall i :: 0 <= i < |After(run).threads| ==> !Starting(After(run).threads[i])
    ensures Count(After(run).threads, IsPing) == Connects(After(run).log) == Count(After(run).threads, IsQuery)
  {
    RunInv(run);
    var c := After(run);
    CountAlike(c.threads, PingDue, IsPing);
    CountAlike(c.threads, QueryDue, IsQuery);
  }

  predicate Reconnecting(pc: Pc) {
    || pc == Dial(true) || pc.AskStopped? || pc.SpawnReconnect? || pc.FirstCheck? || pc.NextBackoff?
    || pc.Sleep? || pc.Check?
  }

  /** What IsConnected tells: that a connection was made once and Stop was not called, nothing else. */
  lemma ConnectedExactly(run: seq<Move>)
    ensures IsConnected(After(run)) <==> Connects(After(run).log) > 0 && Stopped !in After(run).log
  {
    RunInv(run);
  }

  /** IsConnected does not see an outage: it says yes all through a reconnection. */
  lemma BlindToOutages(run: seq<Move>, i: nat)
    requires i < |After(run).threads| && Reconnecting(After(run).threads[i]) && !After(run).stopped
    ensures IsConnected(After(run))
  {
    RunInv(run);
    assert InSession(After(run).threads[i]);
  }
}
