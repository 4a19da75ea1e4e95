/**
 The telemetry sender of telemetry_sender.py: messages from the vehicle update a state record, and at
 most every SEND_INTERVAL seconds the record is posted, with an exponential backoff after 401 answers.

 Message contents arrive decoded (positions already rounded to six decimals, in micro-degrees), the
 clock readings and the server's answers arrive with the events.  Times are reals.
 */
module Telemetry {
  import opened Basics

  const AUTH_BACKOFF_CAP: nat := 60

  // ----- messages and state

  datatype Body =
    | GlobalPosition(lat: int, lon: int, alt: real, heading: real)
    | Heartbeat(armed: bool, mode: string)
    | SysStatus(batteryRemaining: int, voltageBattery: int)
    | Attitude(roll: real, yaw: real, pitch: real)
    | VfrHud(groundspeed: real)
    | GpsRaw(fixType: int, satellites: int)
    | OtherBody

  datatype Msg = Msg(src: nat, body: Body)

  datatype State = State(
    lat: Option<int>, lon: Option<int>, alt: real, heading: real, armed: bool, mode: string,
    battery: real, voltage: real, attitude: Option<(real, real, real)>, speed: real, fixType: int, satellites: int)

  function InitialState(bypass: bool): State {
    State(if bypass then Some(28613900) else None, if bypass then Some(77209000) else None,
          0.0, 0.0, false, "UNKNOWN", 0.1, 0.0, None, 0.0, 0, 0)
  }

  function Absorb(st: State, body: Body): State {
    match body
    case GlobalPosition(lat, lon, alt, heading) =>
      var here := if lat != 0 && lon != 0 then st.(lat := Some(lat), lon := Some(lon)) else st;
      here.(alt := alt, heading := heading)
    case Heartbeat(armed, mode) => st.(armed := armed, mode := mode)
    case SysStatus(b, v) =>
      st.(battery := if b >= 0 then b as real else st.battery,
          voltage := if v != 65535 then v as real / 1000.0 else st.voltage)
    case Attitude(r, y, p) => st.(attitude := Some((r, y, p)))
    case VfrHud(v) => st.(speed := v)
    case GpsRaw(f, n) => st.(fixType := f, satellites := n)
    case OtherBody => st
  }

  // Both coordinates are known and non-zero, or neither is known.
  predicate PositionOk(st: State) {
    || (st.lat.None? && st.lon.None?)
    || (st.lat.Some? && st.lon.Some? && st.lat.value != 0 && st.lon.value != 0)
  }

  // ----- posting

  datatype Response = Status(code: int) | TransportError

  datatype Post = Post(start: real, payload: State, response: Response, end: real)

  // One turn of the loop: a message or None, the clock, and, should a POST happen, its answer and the
  // clock when the answer is in.
  datatype Event = Event(msg: Option<Msg>, now: real, response: Response, after: real)

  datatype Config = Config(target: nat, interval: int, bypass: bool)

  datatype Snapshot = Snapshot(st: State, failCount: nat, authFailCount: nat, lastSend: real, nextSendAfter: real)

  function InitialSnapshot(cfg: Config): Snapshot {
    Snapshot(InitialState(cfg.bypass), 0, 0, 0.0, 0.0)
  }

  function Pow2(n: nat): nat {
    if n == 0 then 1 else 2 * Pow2(n - 1)
  }

  function Backoff(k: nat): (b: nat)
    requires k > 0
    ensures 1 <= b <= AUTH_BACKOFF_CAP
  {
    Pow2Positive(k - 1);
    if Pow2(k - 1) < AUTH_BACKOFF_CAP then Pow2(k - 1) else AUTH_BACKOFF_CAP
  }

  lemma {:induction false} Pow2Positive(n: nat)
    ensures Pow2(n) >= 1
  {
    if n > 0 { Pow2Positive(n - 1); }
  }

  function Received(cfg: Config, st: State, msg: Option<Msg>): State {
    if msg.Some? && msg.value.src == cfg.target then Absorb(st, msg.value.body) else st
  }

  predicate Due(cfg: Config, s: Snapshot, now: real) {
    now - s.lastSend >= cfg.interval as real && now >= s.nextSendAfter
  }

  function Answered(s: Snapshot, response: Response, after: real): Snapshot {
    match response
    case TransportError => s.(failCount := s.failCount + 1)
    case Status(code) =>
      if code == 200 then s.(failCount := 0, authFailCount := 0, nextSendAfter := 0.0)
      else if code == 401 then
        s.(authFailCount := s.authFailCount + 1,
           nextSendAfter := after + Backoff(s.authFailCount + 1) as real)
      else if code < 500 then s
      else s.(failCount := s.failCount + 1)
  }

  // What one turn of the loop posts.
  function Posted(cfg: Config, s: Snapshot, ev: Event): Option<Post> {
    var st := Received(cfg, s.st, ev.msg);
    if Due(cfg, s, ev.now) && st.lat.Some? && st.lon.Some? then Some(Post(ev.now, st, ev.response, ev.after)) else None
  }

  function Turn(cfg: Config, s: Snapshot, ev: Event): Snapshot {
    var t := s.(st := Received(cfg, s.st, ev.msg));
    if !Due(cfg, s, ev.now) then t
    else if Posted(cfg, s, ev).None? then t.(lastSend := ev.now)
    else Answered(t, ev.response, ev.after).(lastSend := ev.now)
  }

  function Final(cfg: Config, events: seq<Event>): Snapshot {
    if events == [] then InitialSnapshot(cfg)
    else Turn(cfg, Final(cfg, events[..|events| - 1]), events[|events| - 1])
  }

  function Trace(cfg: Config, events: seq<Event>): seq<Post> {
    if events == [] then []
    else
      var n := |events| - 1;
      var post := Posted(cfg, Final(cfg, events[..n]), events[n]);
      Trace(cfg, events[..n]) + if post.Some? then [post.value] else []
  }

  // ----- the sender object

  class TelemetrySender {
    const cfg: Config
    var st: State
    var failCount: nat
    var authFailCount: nat
    var lastSend: real
    var nextSendAfter: real
    var seenSysids: set<nat>

    ghost function Now(): Snapshot
      reads this
    {
      Snapshot(st, failCount, authFailCount, lastSend, nextSendAfter)
    }

    constructor (cfg: Config)
      ensures this.cfg == cfg && Now() == InitialSnapshot(cfg) && seenSysids == {}
    {
      this.cfg := cfg;
      st := InitialState(cfg.bypass);
      failCount, authFailCount := 0, 0;
      lastSend, nextSendAfter := 0.0, 0.0;
      seenSysids := {};
    }

    // update_state
    method UpdateState(msg: Msg)
      modifies this
      ensures Now() == old(Now()).(st := Received(cfg, old(st), Some(msg)))
      ensures msg.src != cfg.target ==> st == old(st)
      ensures seenSysids == old(seenSysids) + if msg.body.Heartbeat? then {msg.src} else {}
    {
      if msg.body.Heartbeat? && msg.src !in seenSysids {
        seenSysids := seenSysids + {msg.src};
      }
      if msg.src != cfg.target {
        return;
      }
      match msg.body {
        case GlobalPosition(lat, lon, alt, heading) =>
          if lat != 0 && lon != 0 {
            st := st.(lat := Some(lat));
            st := st.(lon := Some(lon));
          }
          st := st.(alt := alt);
          st := st.(heading := heading);
        case Heartbeat(armed, mode) =>
          st := st.(armed := armed);
          st := st.(mode := mode);
        case SysStatus(b, v) =>
          if b >= 0 { st := st.(battery := b as real); }
          if v != 65535 { st := st.(voltage := v as real / 1000.0); }
        case Attitude(r, y, p) => st := st.(attitude := Some((r, y, p)));
        case VfrHud(v) => st := st.(speed := v);
        case GpsRaw(f, n) =>
          st := st.(fixType := f);
          st := st.(satellites := n);
        case OtherBody =>
      }
    }

    // send: the POST itself and its answer are parameters
    method Send(response: Response, after: real)
      modifies this
      ensures Now() == Answered(old(Now()), response, after)
      ensures seenSysids == old(seenSysids)
    {
      match response {
        case Status(code) =>
          if code == 200 {
            failCount, authFailCount, nextSendAfter := 0, 0, 0.0;
          } else if code == 401 {
            authFailCount := authFailCount + 1;
            nextSendAfter := after + Backoff(authFailCount) as real;
          } else if code >= 500 {
            failCount := failCount + 1;
          }
        case TransportError => failCount := failCount + 1;
      }
    }

    // run, fed with a finite sequence of turns
    method Run(events: seq<Event>) returns (posts: seq<Post>)
      requires Now() == InitialSnapshot(cfg)
      modifies this
      ensures posts == Trace(cfg, events) && Now() == Final(cfg, events)
    {
      posts := [];
      for i := 0 to |events|
        invariant posts == Trace(cfg, events[..i]) && Now() == Final(cfg, events[..i])
      {
        var ev := events[i];
        assert events[..i + 1][..i] == events[..i];
        if ev.msg.Some? {
          UpdateState(ev.msg.value);
        }
        if ev.now - lastSend >= cfg.interval as real && ev.now >= nextSendAfter {
          if st.lat.Some? && st.lon.Some? {
            posts := posts + [Post(ev.now, st, ev.response, ev.after)];
            Send(ev.response, ev.after);
          }
          lastSend := ev.now;
        }
      }
      assert events[..|events|] == events;
    }
  }

  // ----- what holds of every run

  // The clock never goes back, within a turn and from turn to turn.
  predicate Clocked(events: seq<Event>) {
    && (forall i :: 0 <= i < |events| ==> 0.0 <= events[i].now <= events[i].after)
    && (forall i, j :: 0 <= i < j < |events| ==> events[i].after <= events[j].now)
  }

  // Number of 401 answers since the last 200.
  function Rejections(posts: seq<Post>): nat {
    if posts == [] then 0
    else
      var n := |posts| - 1;
      if posts[n].response == Status(200) then 0
      else if posts[n].response == Status(401) then Rejections(posts[..n]) + 1
      else Rejections(posts[..n])
  }

  // The earliest time the answers so far allow for another POST.
  function Gate(posts: seq<Post>): real {
    if posts == [] then 0.0
    else
      var n := |posts| - 1;
      if posts[n].response == Status(200) then 0.0
      else if posts[n].response == Status(401) then posts[n].end + Backoff(Rejections(posts)) as real
      else Gate(posts[..n])
  }

  // What holds of the i-th POST of a trace.
  predicate PostOk(cfg: Config, posts: seq<Post>, i: nat)
    requires i < |posts|
  {
    && PositionOk(posts[i].payload) && posts[i].payload.lat.Some?
    && posts[i].start >= Gate(posts[..i])
    && (i > 0 ==> posts[i].start - posts[i - 1].start >= cfg.interval as real)
  }

  // How the counters of the sender follow from the trace.
  predicate CountersOk(posts: seq<Post>, s: Snapshot) {
    && PositionOk(s.st)
    && s.authFailCount == Rejections(posts)
    && s.nextSendAfter == Gate(posts)
    && (posts != [] ==> posts[|posts| - 1].start <= s.lastSend)
  }

  lemma PostedKeepsCounters(cfg: Config, posts: seq<Post>, s: Snapshot, ev: Event)
    requires CountersOk(posts, s) && Posted(cfg, s, ev).Some?
    ensures CountersOk(posts + [Posted(cfg, s, ev).value], Turn(cfg, s, ev))
  {
  }

  lemma PostedIsOk(cfg: Config, posts: seq<Post>, s: Snapshot, ev: Event)
    requires CountersOk(posts, s) && Posted(cfg, s, ev).Some?
    ensures PostOk(cfg, posts + [Posted(cfg, s, ev).value], |posts|)
  {
  }

  lemma EarlierPostsStayOk(cfg: Config, posts: seq<Post>, post: Post, i: nat)
    requires i < |posts| && PostOk(cfg, posts, i)
    ensures PostOk(cfg, posts + [post], i)
  {
    assert (posts + [post])[..i] == posts[..i];
  }

  ghost predicate TraceOk(cfg: Config, posts: seq<Post>, s: Snapshot, now: real) {
    && CountersOk(posts, s)
    && (forall i :: 0 <= i < |posts| ==> PostOk(cfg, posts, i))
    && (posts != [] ==> posts[|posts| - 1].start <= now)
  }

  lemma TurnKeepsTraceOk(cfg: Config, posts: seq<Post>, s: Snapshot, ev: Event)
    requires TraceOk(cfg, posts, s, ev.now)
    ensures var post := Posted(cfg, s, ev);
      TraceOk(cfg, posts + if post.Some? then [post.value] else [], Turn(cfg, s, ev), ev.now)
  {
    if Posted(cfg, s, ev).Some? {
      var post := Posted(cfg, s, ev).value;
      PostedKeepsCounters(cfg, posts, s, ev);
      PostedIsOk(cfg, posts, s, ev);
      forall i | 0 <= i < |posts| ensures PostOk(cfg, posts + [post], i) {
        EarlierPostsStayOk(cfg, posts, post, i);
      }
    } else {
      assert posts + [] == posts;
    }
  }

  function LastNow(events: seq<Event>): real {
    if events == [] then 0.0 else events[|events| - 1].now
  }

  lemma {:induction false} RunKeepsTraceOk(cfg: Config, events: seq<Event>)
    requires Clocked(events)
    ensures TraceOk(cfg, Trace(cfg, events), Final(cfg, events), LastNow(events))
  {
    if events != [] {
      var n := |events| - 1;
      RunKeepsTraceOk(cfg, events[..n]);
      assert LastNow(events[..n]) <= events[n].now;
      TurnKeepsTraceOk(cfg, Trace(cfg, events[..n]), Final(cfg, events[..n]), events[n]);
    }
  }

  /** Latitude and longitude are both unset or both non-zero, and nothing is posted while they are unset. */
  lemma PositionInvariant(cfg: Config, events: seq<Event>)
    requires Clocked(events)
    ensures PositionOk(Final(cfg, events).st)
    ensures forall i :: 0 <= i < |Trace(cfg, events)| ==>
      var p := Trace(cfg, events)[i].payload;
      p.lat.Some? && p.lon.Some? && p.lat.value != 0 && p.lon.value != 0
  {
    RunKeepsTraceOk(cfg, events);
    TracePositions(cfg, Trace(cfg, events), Final(cfg, events), LastNow(events));
  }

  lemma TracePositions(cfg: Config, posts: seq<Post>, s: Snapshot, now: real)
    requires TraceOk(cfg, posts, s, now)
    ensures PositionOk(s.st)
    ensures forall i :: 0 <= i < |posts| ==>
      var p := posts[i].payload;
      p.lat.Some? && p.lon.Some? && p.lat.value != 0 && p.lon.value != 0
  {
    forall i | 0 <= i < |posts|
      ensures var p := posts[i].payload; p.lat.Some? && p.lon.Some? && p.lat.value != 0 && p.lon.value != 0
    {
      assert PostOk(cfg, posts, i);
    }
  }

  /** Consecutive POSTs start at least SEND_INTERVAL apart. */
  lemma Spacing(cfg: Config, events: seq<Event>, i: nat)
    requires Clocked(events) && 0 < i < |Trace(cfg, events)|
    ensures Trace(cfg, events)[i].start - Trace(cfg, events)[i - 1].start >= cfg.interval as real
  {
    RunKeepsTraceOk(cfg, events);
    assert PostOk(cfg, Trace(cfg, events), i);
  }

  /** As long as no 200 comes in between, a POST after a 401 that is the k-th since the last 200 starts no
      earlier than min(60, 2^(k-1)) seconds after that answer. */
  lemma AuthBackoff(cfg: Config, events: seq<Event>, i: nat, j: nat)
    requires Clocked(events)
    requires i < j < |Trace(cfg, events)| && Trace(cfg, events)[i].response == Status(401)
    requires forall m :: i < m < j ==>
      Trace(cfg, events)[m].response != Status(200) && Trace(cfg, events)[m].response != Status(401)
    ensures var posts := Trace(cfg, events);
      var k := Rejections(posts[..i + 1]);
      k > 0 && posts[j].start >= posts[i].end + (if Pow2(k - 1) < 60 then Pow2(k - 1) else 60) as real
  {
    RunKeepsTraceOk(cfg, events);
    assert PostOk(cfg, Trace(cfg, events), j);
    GateStays(Trace(cfg, events), i, j);
  }

  /** The wait doubles from one second and is 60 seconds from the seventh rejection on. */
  lemma {:induction false} BackoffIs(k: nat)
    requires k > 0
    ensures k <= 6 ==> Backoff(k) == [1, 2, 4, 8, 16, 32][k - 1]
    ensures k > 6 ==> Backoff(k) == 60 && Pow2(k - 1) >= 64
  {
    if k > 1 { BackoffIs(k - 1); }
  }

  lemma {:induction false} GateStays(posts: seq<Post>, i: nat, j: nat)
    requires i < j <= |posts| && posts[i].response == Status(401)
    requires forall m :: i < m < j ==> posts[m].response != Status(200) && posts[m].response != Status(401)
    ensures Rejections(posts[..i + 1]) > 0
    ensures Gate(posts[..j]) == posts[i].end + Backoff(Rejections(posts[..i + 1])) as real
  {
    assert posts[..i + 1][..i] == posts[..i];
    if j > i + 1 {
      GateStays(posts, i, j - 1);
      assert posts[..j][..j - 1] == posts[..j - 1];
    }
  }

  predicate LastRejection(posts: seq<Post>, i: nat) {
    && i < |posts| && posts[i].response == Status(401)
    && forall m :: i < m < |posts| ==> posts[m].response != Status(401)
  }

  // The gate is open, or it opens within 60 seconds of the last 401.
  ghost predicate OpensInTime(posts: seq<Post>, gate: real) {
    gate == 0.0 || exists i: nat :: LastRejection(posts, i) && gate <= posts[i].end + 60.0
  }

  lemma {:induction false} GateBound(posts: seq<Post>)
    ensures OpensInTime(posts, Gate(posts))
  {
    if posts != [] {
      var n := |posts| - 1;
      if posts[n].response == Status(401) {
        assert LastRejection(posts, n);
      } else if posts[n].response != Status(200) {
        GateBound(posts[..n]);
        if Gate(posts[..n]) != 0.0 {
          var i: nat :| LastRejection(posts[..n], i) && Gate(posts[..n]) <= posts[..n][i].end + 60.0;
          assert LastRejection(posts, i);
        }
      }
    }
  }

  /** The gate is never closed for more than 60 seconds after the last 401. */
  lemma GateOpens(cfg: Config, events: seq<Event>)
    requires Clocked(events)
    ensures OpensInTime(Trace(cfg, events), Final(cfg, events).nextSendAfter)
  {
    RunKeepsTraceOk(cfg, events);
    GateBound(Trace(cfg, events));
  }

  // ----- what the record says

  datatype Field = Position | Height | Arming | Battery | Voltage | Angles | Speed | Fix

  // The event is a message of the vehicle that says something about the field.  A position with a zero in it, an
  // unknown charge and the voltage 65535 say nothing.
  predicate Sets(cfg: Config, ev: Event, f: Field) {
    && ev.msg.Some? && ev.msg.value.src == cfg.target
    && var b := ev.msg.value.body;
       match f
       case Position => b.GlobalPosition? && b.lat != 0 && b.lon != 0
       case Height => b.GlobalPosition?
       case Arming => b.Heartbeat?
       case Battery => b.SysStatus? && b.batteryRemaining >= 0
       case Voltage => b.SysStatus? && b.voltageBattery != 65535
       case Angles => b.Attitude?
       case Speed => b.VfrHud?
       case Fix => b.GpsRaw?
  }

  // The record says about the field what the message said.
  predicate Says(cfg: Config, st: State, ev: Event, f: Field)
    requires Sets(cfg, ev, f)
  {
    var b := ev.msg.value.body;
    match f
    case Position => st.lat == Some(b.lat) && st.lon == Some(b.lon)
    case Height => st.alt == b.alt && st.heading == b.heading
    case Arming => st.armed == b.armed && st.mode == b.mode
    case Battery => st.battery == b.batteryRemaining as real
    case Voltage => 1000.0 * st.voltage == b.voltageBattery as real
    case Angles => st.attitude == Some((b.roll, b.yaw, b.pitch))
    case Speed => st.speed == b.groundspeed
    case Fix => st.fixType == b.fixType && st.satellites == b.satellites
  }

  // Two records agree on the field.
  predicate Agree(st: State, su: State, f: Field) {
    match f
    case Position => st.lat == su.lat && st.lon == su.lon
    case Height => st.alt == su.alt && st.heading == su.heading
    case Arming => st.armed == su.armed && st.mode == su.mode
    case Battery => st.battery == su.battery
    case Voltage => st.voltage == su.voltage
    case Angles => st.attitude == su.attitude
    case Speed => st.speed == su.speed
    case Fix => st.fixType == su.fixType && st.satellites == su.satellites
  }

  lemma TurnSays(cfg: Config, s: Snapshot, ev: Event, f: Field)
    ensures Sets(cfg, ev, f) ==> Says(cfg, Turn(cfg, s, ev).st, ev, f)
    ensures !Sets(cfg, ev, f) ==> Agree(Turn(cfg, s, ev).st, s.st, f)
  {
  }

  /** Every field of the record is what the last message of the vehicle that said something about it said. */
  lemma {:induction false} FieldIsLast(cfg: Config, events: seq<Event>, i: nat, f: Field)
    requires i < |events| && Sets(cfg, events[i], f) && forall j :: i < j < |events| ==> !Sets(cfg, events[j], f)
    ensures Says(cfg, Final(cfg, events).st, events[i], f)
  {
    var n := |events| - 1;
    TurnSays(cfg, Final(cfg, events[..n]), events[n], f);
    if i < n { FieldIsLast(cfg, events[..n], i, f); }
  }

  // Without such a message it is as at the start, where no position is known unless the check is bypassed.
  lemma {:induction false} FieldIsInitial(cfg: Config, events: seq<Event>, f: Field)
    requires forall j :: 0 <= j < |events| ==> !Sets(cfg, events[j], f)
    ensures Agree(Final(cfg, events).st, InitialState(cfg.bypass), f)
    ensures f.Position? ==> (Final(cfg, events).st.lat.Some? <==> cfg.bypass)
  {
    if events != [] {
      var n := |events| - 1;
      TurnSays(cfg, Final(cfg, events[..n]), events[n], f);
      FieldIsInitial(cfg, events[..n], f);
    }
  }

  // The post was made in turn n.
  ghost predicate MadeIn(cfg: Config, events: seq<Event>, post: Post, n: nat) {
    && n < |events| && post.start == events[n].now && post.response == events[n].response && post.end == events[n].after
    && post.payload == Final(cfg, events[..n + 1]).st
  }

  /** A POST carries the record as the messages up to and including its turn have made it. */
  lemma {:induction false} PostIsCurrent(cfg: Config, events: seq<Event>, k: nat) returns (n: nat)
    requires k < |Trace(cfg, events)|
    ensures MadeIn(cfg, events, Trace(cfg, events)[k], n)
  {
    var m := |events| - 1;
    var front := events[..m];
    if k < |Trace(cfg, front)| {
      n := PostIsCurrent(cfg, front, k);
      assert events[..n + 1] == front[..n + 1];
    } else {
      n := m;
      assert events[..m + 1] == events;
    }
  }

  /** A POST carries the last position that the vehicle reported. */
  lemma PostedPosition(cfg: Config, events: seq<Event>, k: nat, n: nat, i: nat)
    requires k < |Trace(cfg, events)| && MadeIn(cfg, events, Trace(cfg, events)[k], n) && i <= n
    requires Sets(cfg, events[i], Position) && forall j :: i < j <= n ==> !Sets(cfg, events[j], Position)
    ensures var p := Trace(cfg, events)[k].payload;
      var b := events[i].msg.value.body;
      p.lat == Some(b.lat) && p.lon == Some(b.lon)
  {
    FieldIsLast(cfg, events[..n + 1], i, Position);
  }

  // ----- when a POST happens

  // Number of failed transports and server errors since the last 200.
  function Failures(posts: seq<Post>): nat {
    if posts == [] then 0
    else
      var n := |posts| - 1;
      match posts[n].response
      case TransportError => Failures(posts[..n]) + 1
      case Status(code) =>
        if code == 200 then 0 else if code >= 500 then Failures(posts[..n]) + 1 else Failures(posts[..n])
  }

  lemma FailuresMore(cfg: Config, posts: seq<Post>, s: Snapshot, ev: Event)
    requires s.failCount == Failures(posts)
    ensures var post := Posted(cfg, s, ev);
      Turn(cfg, s, ev).failCount == Failures(posts + if post.Some? then [post.value] else [])
  {
    var post := Posted(cfg, s, ev);
    if post.Some? {
      assert (posts + [post.value])[..|posts|] == posts;
    } else {
      assert posts + [] == posts;
    }
  }

  lemma {:induction false} FailuresCounted(cfg: Config, events: seq<Event>)
    ensures Final(cfg, events).failCount == Failures(Trace(cfg, events))
  {
    if events != [] {
      var n := |events| - 1;
      FailuresCounted(cfg, events[..n]);
      FailuresMore(cfg, Trace(cfg, events[..n]), Final(cfg, events[..n]), events[n]);
    }
  }

  // The position stays known once it is.
  predicate Located(s: Snapshot) {
    s.st.lat.Some? && s.st.lon.Some?
  }

  // The last send is the last POST.
  predicate LastSent(posts: seq<Post>, s: Snapshot) {
    s.lastSend == if posts == [] then 0.0 else posts[|posts| - 1].start
  }

  lemma TurnLocated(cfg: Config, posts: seq<Post>, s: Snapshot, ev: Event)
    requires Located(s) && LastSent(posts, s)
    ensures Located(Turn(cfg, s, ev))
    ensures var post := Posted(cfg, s, ev);
      LastSent(posts + if post.Some? then [post.value] else [], Turn(cfg, s, ev))
  {
  }

  lemma {:induction false} BypassLocated(cfg: Config, events: seq<Event>)
    requires cfg.bypass
    ensures Located(Final(cfg, events)) && LastSent(Trace(cfg, events), Final(cfg, events))
  {
    if events != [] {
      var n := |events| - 1;
      BypassLocated(cfg, events[..n]);
      TurnLocated(cfg, Trace(cfg, events[..n]), Final(cfg, events[..n]), events[n]);
    }
  }

  lemma TraceMore(cfg: Config, events: seq<Event>, ev: Event)
    ensures var post := Posted(cfg, Final(cfg, events), ev);
      Trace(cfg, events + [ev]) == Trace(cfg, events) + if post.Some? then [post.value] else []
  {
    assert (events + [ev])[..|events|] == events;
  }

  /** Without the position check, a turn posts exactly if the interval has passed since the last POST and the gate of
      the last rejection is open. */
  lemma PostsWhenDue(cfg: Config, events: seq<Event>, ev: Event)
    requires cfg.bypass && Clocked(events)
    ensures var posts := Trace(cfg, events);
      var last := if posts == [] then 0.0 else posts[|posts| - 1].start;
      |Trace(cfg, events + [ev])| == |posts| +
        if ev.now - last >= cfg.interval as real && ev.now >= Gate(posts) then 1 else 0
  {
    BypassLocated(cfg, events);
    RunKeepsTraceOk(cfg, events);
    TraceMore(cfg, events, ev);
    StaysLocated(cfg, Final(cfg, events), ev);
  }

  lemma StaysLocated(cfg: Config, s: Snapshot, ev: Event)
    requires Located(s)
    ensures Posted(cfg, s, ev).Some? <==> ev.now - s.lastSend >= cfg.interval as real && ev.now >= s.nextSendAfter
  {
  }

  /** With it, no turn posts before the vehicle has reported a position. */
  lemma {:induction false} SilentUntilLocated(cfg: Config, events: seq<Event>)
    requires !cfg.bypass && forall j :: 0 <= j < |events| ==> !Sets(cfg, events[j], Position)
    ensures Trace(cfg, events) == []
  {
    if events != [] {
      SilentUntilLocated(cfg, events[..|events| - 1]);
      FieldIsInitial(cfg, events, Position);
    }
  }

  // ----- foreign system ids

  // The same run with every message of another system silenced.
  function Silenced(cfg: Config, events: seq<Event>): (r: seq<Event>)
    ensures |r| == |events|
  {
    if events == [] then []
    else
      var n := |events| - 1;
      var ev := events[n];
      Silenced(cfg, events[..n]) +
      [if ev.msg.Some? && ev.msg.value.src != cfg.target then ev.(msg := None) else ev]
  }

  /** Messages from foreign system ids influence neither the telemetry state nor a single POST. */
  lemma {:induction false} ForeignMessagesIrrelevant(cfg: Config, events: seq<Event>)
    ensures Trace(cfg, Silenced(cfg, events)) == Trace(cfg, events)
    ensures Final(cfg, Silenced(cfg, events)) == Final(cfg, events)
  {
    if events != [] {
      var n := |events| - 1;
      ForeignMessagesIrrelevant(cfg, events[..n]);
      assert Silenced(cfg, events)[..n] == Silenced(cfg, events[..n]);
    }
  }
}
