/**
 The channel switch announcement of an access point (rtw_ap.c): each beacon update with the channel
 switch id writes, counts down and finally removes the Channel Switch Announcement element and, where
 configured, its extended form, and then orders the channel change (section 9.4.2.19 of IEEE Std
 802.11-2016).
 */
module BeaconCsa {
  import opened Basics
  import opened BeaconIe

  const EID_CHANNEL_SWITCH: Byte := 37
  const EID_ECSA: Byte := 60

  datatype Enable = Disabled | SwitchChannel | StaJoinBss | IeRemove

  // ecsa: CONFIG_ECSA; opClass: the operating class of the new channel; linking: there is a station that wants to
  // join (CONFIG_CONCURRENT_MODE)
  datatype Config = Config(ecsa: bool, opClass: Byte, ch: Byte, linking: bool)

  // What ap_process_csa sets off: bcn_control_cmd, rtw_change_bss_chbw_cmd, rtw_joinbss_cmd
  datatype Order = StopBeacon | ChangeChannel(ch: Byte) | JoinBss

  datatype State = State(elems: seq<Elem>, en: Enable, cnt: Byte, orders: seq<Order>)

  // A switch is under way: by the access point itself, or for a station that joins a network.
  predicate Active(en: Enable) {
    en.SwitchChannel? || en.StaJoinBss?
  }

  // The new state of the switch and the orders, when ap_process_csa is called with the count at zero.
  function Processed(cfg: Config, en: Enable): (Enable, seq<Order>) {
    if en.SwitchChannel? then (IeRemove, [StopBeacon, ChangeChannel(cfg.ch)])
    else if en.StaJoinBss? && cfg.linking then (IeRemove, [StopBeacon, JoinBss])
    else (en, [StopBeacon])
  }

  function CsaData(cfg: Config, cnt: Byte): Data {
    [0, cfg.ch, cnt]
  }

  function EcsaData(cfg: Config, cnt: Byte): Data {
    [0, cfg.opClass, cfg.ch, cnt]
  }

  // ----- one update

  datatype IeUpdate = IeUpdate(elems: seq<Elem>, updated: bool, process: bool)

  // update_csa_ie and update_ecsa_ie, which differ in the id and the data only
  function UpdateIe(es: seq<Elem>, en: Enable, cnt: Byte, id: Byte, data: Data): IeUpdate
    requires data != []
  {
    var k := Find(es, id);
    if en.Disabled? || en.IeRemove? then IeUpdate(es, false, false)
    else if k < |es| && |es[k].data| == |data| && cnt > 0 then
      IeUpdate(es[k := Elem(id, es[k].data[|data| - 1 := cnt])], true, false)
    else if k == |es| && cnt > 0 then IeUpdate(Added(es, id, data), true, false)
    else if k < |es| && es[k].data != [] && cnt == 0 then IeUpdate(Removed(es, id), true, true)
    else IeUpdate(es, false, false)
  }

  // The channel switch case of _update_beacon, with ap_process_csa.
  function Update(cfg: Config, s: State): State {
    var u := UpdateIe(s.elems, s.en, s.cnt, EID_CHANNEL_SWITCH, CsaData(cfg, s.cnt));
    var v := if cfg.ecsa then UpdateIe(u.elems, s.en, s.cnt, EID_ECSA, EcsaData(cfg, s.cnt))
             else IeUpdate(u.elems, false, false);
    var (en, orders) := if (u.process || v.process) && s.cnt == 0 then Processed(cfg, s.en) else (s.en, []);
    State(v.elems, en, if (u.updated || v.updated) && s.cnt > 0 then s.cnt - 1 else s.cnt, s.orders + orders)
  }

  function After(cfg: Config, s: State, n: nat): State {
    if n == 0 then s else Update(cfg, After(cfg, s, n - 1))
  }

  // ----- one update of a beacon with a slot for the element

  ghost predicate Below(p: seq<Elem>, id: Byte) {
    forall i :: 0 <= i < |p| ==> p[i].id < id
  }

  ghost predicate Above(q: seq<Elem>, id: Byte) {
    forall i :: 0 <= i < |q| ==> q[i].id > id
  }

  predicate Anchored(p: seq<Elem>) {
    p != [] && p[|p| - 1].data != []
  }

  lemma PlaceOf(p: seq<Elem>, e: Elem, q: seq<Elem>, e2: Elem)
    requires Below(p, e.id) && e.data != []
    ensures var f := p + [e] + q;
      && Find(f, e.id) == |p| && f[|p|] == e
      && Removed(f, e.id) == p + q
      && f[|p| := e2] == p + [e2] + q
  {
  }

  lemma PlaceFor(p: seq<Elem>, q: seq<Elem>, e: Elem)
    requires Below(p, e.id) && Above(q, e.id)
    ensures Find(p + q, e.id) == |p + q|
    ensures AddWorks(p + q, e.id) == Anchored(p)
    ensures Added(p + q, e.id, e.data) == if Anchored(p) then p + [e] + q else p + q
  {
  }

  // What an update makes of the slot s, which holds the element or nothing.
  function Slot(s: seq<Elem>, anchored: bool, cnt: Byte, id: Byte, data: Data): seq<Elem> {
    if cnt > 0 && (s != [] || anchored) then [Elem(id, data)] else []
  }

  // The slot is empty, or holds an announcement that differs from data in its last octet.
  ghost predicate SlotOk(s: seq<Elem>, id: Byte, data: Data) {
    && |s| <= 1 && data != []
    && (s != [] ==> s[0].id == id && |s[0].data| == |data| && s[0].data[..|data| - 1] == data[..|data| - 1])
  }

  lemma UpdateSlot(p: seq<Elem>, s: seq<Elem>, q: seq<Elem>, en: Enable, cnt: Byte, id: Byte, data: Data)
    requires Active(en) && Below(p, id) && Above(q, id) && SlotOk(s, id, data) && data[|data| - 1] == cnt
    ensures UpdateIe(p + s + q, en, cnt, id, data)
         == IeUpdate(p + Slot(s, Anchored(p), cnt, id, data) + q, cnt > 0 || s != [], cnt == 0 && s != [])
  {
    if s == [] {
      assert p + s + q == p + q;
      PlaceFor(p, q, Elem(id, data));
      assert p + [] + q == p + q;
    } else {
      var e := Elem(id, data);
      assert s == [s[0]] && s[0].data[|data| - 1 := cnt] == data;
      PlaceOf(p, s[0], q, e);
      assert p + [] + q == p + q;
    }
  }

  // ----- the countdown

  // The two places where the announcements go, in a beacon made of p, m and q.
  ghost predicate Cut(p: seq<Elem>, m: seq<Elem>, q: seq<Elem>) {
    && Below(p, EID_CHANNEL_SWITCH)
    && Above(m, EID_CHANNEL_SWITCH) && Below(m, EID_ECSA)
    && Above(q, EID_ECSA)
  }

  function Beacon(p: seq<Elem>, x: seq<Elem>, m: seq<Elem>, y: seq<Elem>, q: seq<Elem>): seq<Elem> {
    p + x + (m + y + q)
  }

  // The slots while the count c is announced; nothing is announced with a count of zero.
  function CsaSlot(cfg: Config, p: seq<Elem>, c: Byte): (x: seq<Elem>)
    ensures |x| <= 1
  {
    if c > 0 && Anchored(p) then [Elem(EID_CHANNEL_SWITCH, CsaData(cfg, c))] else []
  }

  function EcsaSlot(cfg: Config, pm: seq<Elem>, c: Byte): (y: seq<Elem>)
    ensures |y| <= 1
  {
    if c > 0 && cfg.ecsa && Anchored(pm) then [Elem(EID_ECSA, EcsaData(cfg, c))] else []
  }

  // The announcement of c0 gives way to the announcement of c.
  lemma CsaStep(cfg: Config, p: seq<Elem>, q: seq<Elem>, en: Enable, c0: Byte, c: Byte)
    requires Active(en) && Below(p, EID_CHANNEL_SWITCH) && Above(q, EID_CHANNEL_SWITCH)
    ensures UpdateIe(p + CsaSlot(cfg, p, c0) + q, en, c, EID_CHANNEL_SWITCH, CsaData(cfg, c))
         == IeUpdate(p + CsaSlot(cfg, p, c) + q, c > 0 || CsaSlot(cfg, p, c0) != [],
                     c == 0 && CsaSlot(cfg, p, c0) != [])
  {
    UpdateSlot(p, CsaSlot(cfg, p, c0), q, en, c, EID_CHANNEL_SWITCH, CsaData(cfg, c));
  }

  lemma EcsaStep(cfg: Config, p: seq<Elem>, q: seq<Elem>, en: Enable, c0: Byte, c: Byte)
    requires Active(en) && cfg.ecsa && Below(p, EID_ECSA) && Above(q, EID_ECSA)
    ensures UpdateIe(p + EcsaSlot(cfg, p, c0) + q, en, c, EID_ECSA, EcsaData(cfg, c))
         == IeUpdate(p + EcsaSlot(cfg, p, c) + q, c > 0 || EcsaSlot(cfg, p, c0) != [],
                     c == 0 && EcsaSlot(cfg, p, c0) != [])
  {
    UpdateSlot(p, EcsaSlot(cfg, p, c0), q, en, c, EID_ECSA, EcsaData(cfg, c));
  }

  // The plain announcement does not change whether the extended one has an anchor.
  lemma SameAnchor(p: seq<Elem>, x: seq<Elem>, m: seq<Elem>)
    requires x != [] ==> Anchored(p) && Anchored(x)
    ensures Anchored(p + x + m) == Anchored(p + m)
  {
  }

  function Announcing(cfg: Config, p: seq<Elem>, m: seq<Elem>, q: seq<Elem>, c: Byte): seq<Elem> {
    Beacon(p, CsaSlot(cfg, p, c), m, EcsaSlot(cfg, p + m, c), q)
  }

  predicate SlotFilled(cfg: Config, p: seq<Elem>, m: seq<Elem>) {
    Anchored(p) || (cfg.ecsa && Anchored(p + m))
  }

  lemma Regroup(p: seq<Elem>, x: seq<Elem>, m: seq<Elem>, y: seq<Elem>, q: seq<Elem>)
    ensures Beacon(p, x, m, y, q) == (p + x + m) + y + q
  {
  }

  lemma EcsaPart(cfg: Config, p: seq<Elem>, x: seq<Elem>, m: seq<Elem>, q: seq<Elem>, en: Enable, c0: Byte, c: Byte)
    requires Active(en) && Cut(p, m, q) && cfg.ecsa && x == CsaSlot(cfg, p, c)
    ensures var y0 := EcsaSlot(cfg, p + m, c0);
      UpdateIe(Beacon(p, x, m, y0, q), en, c, EID_ECSA, EcsaData(cfg, c))
         == IeUpdate(Beacon(p, x, m, EcsaSlot(cfg, p + m, c), q), c > 0 || y0 != [], c == 0 && y0 != [])
  {
    SameAnchor(p, x, m);
    EcsaStep(cfg, p + x + m, q, en, c0, c);
    Regroup(p, x, m, EcsaSlot(cfg, p + m, c0), q);
    Regroup(p, x, m, EcsaSlot(cfg, p + m, c), q);
  }

  lemma UpdateCut(cfg: Config, p: seq<Elem>, m: seq<Elem>, q: seq<Elem>, en: Enable, c0: Byte, c: Byte,
                  orders: seq<Order>)
    requires Cut(p, m, q) && Active(en)
    ensures Update(cfg, State(Announcing(cfg, p, m, q, c0), en, c, orders))
         == if c == 0 && c0 > 0 && SlotFilled(cfg, p, m)
            then State(Announcing(cfg, p, m, q, 0), Processed(cfg, en).0, 0, orders + Processed(cfg, en).1)
            else State(Announcing(cfg, p, m, q, c), en, if c > 0 then c - 1 else 0, orders)
  {
    var y0 := EcsaSlot(cfg, p + m, c0);
    CsaStep(cfg, p, m + y0 + q, en, c0, c);
    if cfg.ecsa {
      EcsaPart(cfg, p, CsaSlot(cfg, p, c), m, q, en, c0, c);
    }
  }

  // ----- the whole switch, in terms of the beacon it starts from

  ghost predicate Quiet(es: seq<Elem>) {
    Sorted(es) && !Has(es, EID_CHANNEL_SWITCH) && !Has(es, EID_ECSA)
  }

  // The beacon with both elements added, each where rtw_add_bcn_ie can.
  function Announced(cfg: Config, es: seq<Elem>, c: Byte): seq<Elem> {
    var f := Added(es, EID_CHANNEL_SWITCH, CsaData(cfg, c));
    if cfg.ecsa then Added(f, EID_ECSA, EcsaData(cfg, c)) else f
  }

  // Whether at least one of the two elements can be added.
  predicate CanAnnounce(cfg: Config, es: seq<Elem>) {
    AddWorks(es, EID_CHANNEL_SWITCH) || (cfg.ecsa && AddWorks(es, EID_ECSA))
  }

  lemma CutAt(es: seq<Elem>, a: nat, b: nat)
    requires a <= b <= |es|
    requires forall i :: 0 <= i < a ==> es[i].id < EID_CHANNEL_SWITCH
    requires forall i :: a <= i < b ==> EID_CHANNEL_SWITCH < es[i].id < EID_ECSA
    requires forall i :: b <= i < |es| ==> es[i].id > EID_ECSA
    ensures Cut(es[..a], es[a..b], es[b..]) && es == es[..a] + (es[a..b] + es[b..])
  {
  }

  lemma CutOf(es: seq<Elem>) returns (p: seq<Elem>, m: seq<Elem>, q: seq<Elem>)
    requires Quiet(es)
    ensures Cut(p, m, q) && es == p + (m + q)
  {
    SortedStop(es, EID_CHANNEL_SWITCH);
    SortedStop(es, EID_ECSA);
    var a, b := StopAt(es, EID_CHANNEL_SWITCH), StopAt(es, EID_ECSA);
    p, m, q := es[..a], es[a..b], es[b..];
    CutAt(es, a, b);
  }

  lemma Associate(p: seq<Elem>, m: seq<Elem>, q: seq<Elem>)
    ensures p + (m + q) == (p + m) + q
  {
  }

  // The slots are what adding does.
  lemma AnchorsAre(p: seq<Elem>, m: seq<Elem>, q: seq<Elem>)
    requires Cut(p, m, q)
    ensures AddWorks(p + (m + q), EID_CHANNEL_SWITCH) == Anchored(p)
    ensures AddWorks(p + (m + q), EID_ECSA) == Anchored(p + m)
  {
    PlaceFor(p, m + q, Elem(EID_CHANNEL_SWITCH, []));
    Associate(p, m, q);
    PlaceFor(p + m, q, Elem(EID_ECSA, []));
  }

  lemma AnnouncingIs(cfg: Config, p: seq<Elem>, m: seq<Elem>, q: seq<Elem>, c: Byte)
    requires Cut(p, m, q) && c > 0
    ensures Announcing(cfg, p, m, q, c) == Announced(cfg, p + (m + q), c)
    ensures AddWorks(Added(p + (m + q), EID_CHANNEL_SWITCH, CsaData(cfg, c)), EID_ECSA) == Anchored(p + m)
  {
    var x := CsaSlot(cfg, p, c);
    PlaceFor(p, m + q, Elem(EID_CHANNEL_SWITCH, CsaData(cfg, c)));
    NoSlot(p, m + q);
    assert Added(p + (m + q), EID_CHANNEL_SWITCH, CsaData(cfg, c)) == p + x + (m + q);
    ExtendedIs(cfg, p, x, m, q, c);
    NoSlot(m, q);
  }

  lemma NoSlot(p: seq<Elem>, q: seq<Elem>)
    ensures p + [] + q == p + q
  {
  }

  lemma ExtendedIs(cfg: Config, p: seq<Elem>, x: seq<Elem>, m: seq<Elem>, q: seq<Elem>, c: Byte)
    requires Cut(p, m, q) && c > 0 && x == CsaSlot(cfg, p, c)
    ensures AddWorks(p + x + (m + q), EID_ECSA) == Anchored(p + m)
    ensures cfg.ecsa ==>
      Added(p + x + (m + q), EID_ECSA, EcsaData(cfg, c)) == Beacon(p, x, m, EcsaSlot(cfg, p + m, c), q)
  {
    Associate(p + x, m, q);
    SameAnchor(p, x, m);
    PlaceFor(p + x + m, q, Elem(EID_ECSA, EcsaData(cfg, c)));
    Regroup(p, x, m, EcsaSlot(cfg, p + m, c), q);
    NoSlot(p + x + m, q);
  }

  /** The announcement: each element is there exactly when it could be added, with the count c, and taking
      both out again gives back the beacon. */
  lemma AnnouncedIs(cfg: Config, es: seq<Elem>, c: Byte)
    requires Quiet(es) && c > 0
    ensures var f := Announced(cfg, es, c);
      && Sorted(f)
      && (if AddWorks(es, EID_CHANNEL_SWITCH)
          then Has(f, EID_CHANNEL_SWITCH) && f[Find(f, EID_CHANNEL_SWITCH)].data == [0, cfg.ch, c]
          else !Has(f, EID_CHANNEL_SWITCH))
      && (if cfg.ecsa && AddWorks(es, EID_ECSA)
          then Has(f, EID_ECSA) && f[Find(f, EID_ECSA)].data == [0, cfg.opClass, cfg.ch, c]
          else !Has(f, EID_ECSA))
      && Removed(Removed(f, EID_ECSA), EID_CHANNEL_SWITCH) == es
  {
    var p, m, q := CutOf(es);
    AnnouncingIs(cfg, p, m, q, c);
    AnchorsAre(p, m, q);
    var f := Added(es, EID_CHANNEL_SWITCH, CsaData(cfg, c));
    var g := Announced(cfg, es, c);
    FirstOf(es, EID_CHANNEL_SWITCH, EID_ECSA, CsaData(cfg, c));
    if cfg.ecsa {
      FirstOf(f, EID_ECSA, EID_CHANNEL_SWITCH, EcsaData(cfg, c));
    }
  }

  // Adding one element leaves the other as it was.
  lemma FirstOf(es: seq<Elem>, id: Byte, other: Byte, data: Data)
    requires Sorted(es) && !Has(es, id) && id != other && data != []
    ensures var f := Added(es, id, data);
      && Sorted(f)
      && Has(f, id) == AddWorks(es, id) && (Has(f, id) ==> f[Find(f, id)].data == data)
      && Removed(f, id) == es
      && Has(f, other) == Has(es, other)
      && (Has(f, other) ==> f[Find(f, other)] == es[Find(es, other)])
  {
    var f := Added(es, id, data);
    AddThenRemove(es, id, data);
    if AddWorks(es, id) {
      AddKeepsSorted(es, id, data);
      SortedStop(es, id);
      OtherStays(es, StopAt(es, id), Elem(id, data), other);
    }
  }

  lemma OtherStays(es: seq<Elem>, k: nat, e: Elem, other: Byte)
    requires k <= |es| && e.id != other
    ensures var f := Inserted(es, k, e); var i := Find(es, other);
      Find(f, other) == if i < k then i else i + 1
  {
    var i := Find(es, other);
    FindIs(Inserted(es, k, e), other, if i < k then i else i + 1);
  }

  // The beacon that announces c, and the plain one for zero.
  function Shown(cfg: Config, es: seq<Elem>, c: Byte): seq<Elem> {
    if c == 0 then es else Announced(cfg, es, c)
  }

  lemma ShownIs(cfg: Config, p: seq<Elem>, m: seq<Elem>, q: seq<Elem>, c: Byte)
    requires Cut(p, m, q)
    ensures Announcing(cfg, p, m, q, c) == Shown(cfg, p + (m + q), c)
  {
    if c > 0 {
      AnnouncingIs(cfg, p, m, q, c);
    } else {
      NoSlot(p, m + q);
      NoSlot(m, q);
    }
  }

  lemma CountStep(cfg: Config, es: seq<Elem>, en: Enable, c0: Byte, c: Byte, orders: seq<Order>)
    requires Quiet(es) && Active(en)
    ensures Update(cfg, State(Shown(cfg, es, c0), en, c, orders))
         == if c == 0 && c0 > 0 && CanAnnounce(cfg, es)
            then State(es, Processed(cfg, en).0, 0, orders + Processed(cfg, en).1)
            else State(Shown(cfg, es, c), en, if c > 0 then c - 1 else 0, orders)
  {
    var p, m, q := CutOf(es);
    AnchorsAre(p, m, q);
    ShownIs(cfg, p, m, q, c0);
    ShownIs(cfg, p, m, q, c);
    UpdateCut(cfg, p, m, q, en, c0, c, orders);
  }

  // A switch from one beacon: started in state en with count n, after the orders given before.
  datatype Switch = Switch(cfg: Config, es: seq<Elem>, en: Enable, n: Byte, orders: seq<Order>)

  ghost predicate Starts(w: Switch) {
    Quiet(w.es) && Active(w.en)
  }

  function FirstState(w: Switch): State {
    State(w.es, w.en, w.n, w.orders)
  }

  // The state after i updates.
  function Expected(w: Switch, i: nat): State {
    if i == 0 then FirstState(w)
    else if i <= w.n then State(Announced(w.cfg, w.es, w.n - i + 1), w.en, w.n - i, w.orders)
    else if w.n > 0 && CanAnnounce(w.cfg, w.es)
    then State(w.es, Processed(w.cfg, w.en).0, 0, w.orders + Processed(w.cfg, w.en).1)
    else State(w.es, w.en, 0, w.orders)
  }

  lemma IdleStep(cfg: Config, s: State)
    requires s.en.IeRemove?
    ensures Update(cfg, s) == s
  {
  }

  lemma CountsOn(w: Switch, i: nat)
    requires Starts(w) && i <= w.n
    ensures Update(w.cfg, Expected(w, i)) == Expected(w, i + 1)
  {
    var c0: Byte := if i == 0 then 0 else w.n - i + 1;
    ExpectedShows(w, i, c0);
    CountStep(w.cfg, w.es, w.en, c0, w.n - i, w.orders);
  }

  lemma StaysEnded(w: Switch, i: nat)
    requires Starts(w) && i > w.n
    ensures Update(w.cfg, Expected(w, i)) == Expected(w, i)
  {
    var s := Expected(w, i);
    if s.en.IeRemove? {
      IdleStep(w.cfg, s);
    } else {
      CountStep(w.cfg, w.es, w.en, 0, 0, s.orders);
    }
  }

  lemma ExpectedStep(w: Switch, i: nat)
    requires Starts(w)
    ensures Update(w.cfg, Expected(w, i)) == Expected(w, i + 1)
  {
    if i <= w.n { CountsOn(w, i); } else { StaysEnded(w, i); }
  }

  /** A switch started with count n over a sorted beacon announces n, n - 1, ..., 1 in its first n updates.
      If one of the elements could be added, update n + 1 restores the beacon and gives the orders of the switch,
      once: later updates change nothing.  Otherwise no order is ever given. */
  lemma {:induction false} Countdown(w: Switch, i: nat)
    requires Starts(w)
    ensures After(w.cfg, FirstState(w), i) == Expected(w, i)
  {
    if i > 0 {
      Countdown(w, i - 1);
      ExpectedNext(w, i - 1, FirstState(w));
    }
  }

  lemma ExpectedNext(w: Switch, i: nat, s: State)
    requires Starts(w) && After(w.cfg, s, i) == Expected(w, i)
    ensures After(w.cfg, s, i + 1) == Expected(w, i + 1)
  {
    ExpectedStep(w, i);
    AfterNext(w.cfg, s, i + 1, Expected(w, i), Expected(w, i + 1));
  }

  lemma AfterNext(cfg: Config, s: State, i: nat, t: State, u: State)
    requires i > 0 && After(cfg, s, i - 1) == t && Update(cfg, t) == u
    ensures After(cfg, s, i) == u
  {
  }

  // How many of the orders change the channel.
  function Changes(orders: seq<Order>): nat {
    if orders == [] then 0 else
      Changes(orders[..|orders| - 1]) + if orders[|orders| - 1].ChangeChannel? then 1 else 0
  }

  lemma ChangesOne(orders: seq<Order>, ch: Byte)
    ensures Changes(orders + [StopBeacon, ChangeChannel(ch)]) == Changes(orders) + 1
    ensures Changes(orders + [StopBeacon, JoinBss]) == Changes(orders + [StopBeacon]) == Changes(orders)
  {
    assert (orders + [StopBeacon])[..|orders|] == orders;
    assert (orders + [StopBeacon, ChangeChannel(ch)])[..|orders| + 1] == orders + [StopBeacon];
    assert (orders + [StopBeacon, JoinBss])[..|orders| + 1] == orders + [StopBeacon];
  }

  /** The access point's own switch orders one change of the channel, to the channel announced and after the
      beacon was stopped, with update n + 1 and not before, exactly if one of the elements could be added. */
  lemma ChangesOnce(cfg: Config, es: seq<Elem>, n: Byte, i: nat)
    requires Quiet(es)
    ensures var orders := After(cfg, State(es, SwitchChannel, n, []), i).orders;
      var due := i > n > 0 && CanAnnounce(cfg, es);
      && Changes(orders) == (if due then 1 else 0)
      && (forall o :: o in orders && o.ChangeChannel? ==> o.ch == cfg.ch)
      && (due ==> orders == [StopBeacon, ChangeChannel(cfg.ch)])
      && (!due ==> orders == [])
  {
    Countdown(Switch(cfg, es, SwitchChannel, n, []), i);
    ChangesOne([], cfg.ch);
    assert [] + [StopBeacon, ChangeChannel(cfg.ch)] == [StopBeacon, ChangeChannel(cfg.ch)];
  }

  /** A switch for the sake of a station orders the join instead, if there is still a station that wants to join,
      and never changes the channel itself. */
  lemma JoinsInstead(cfg: Config, es: seq<Elem>, n: Byte, i: nat)
    requires Quiet(es)
    ensures var orders := After(cfg, State(es, StaJoinBss, n, []), i).orders;
      && Changes(orders) == 0
      && (JoinBss in orders <==> i > n > 0 && CanAnnounce(cfg, es) && cfg.linking)
      && (StopBeacon in orders <==> i > n > 0 && CanAnnounce(cfg, es))
  {
    Countdown(Switch(cfg, es, StaJoinBss, n, []), i);
    ChangesOne([], cfg.ch);
    assert [] + [StopBeacon, JoinBss] == [StopBeacon, JoinBss] && [] + [StopBeacon] == [StopBeacon];
  }

  /** The channel change is ordered, at all, if and only if the count is not zero and one of the elements can be
      added. */
  lemma SwitchesIff(cfg: Config, es: seq<Elem>, n: Byte)
    requires Quiet(es)
    ensures (exists i: nat :: ChangeChannel(cfg.ch) in After(cfg, State(es, SwitchChannel, n, []), i).orders) <==>
        n > 0 && CanAnnounce(cfg, es)
  {
    forall i: nat
      ensures ChangeChannel(cfg.ch) in After(cfg, State(es, SwitchChannel, n, []), i).orders <==>
        i > n > 0 && CanAnnounce(cfg, es)
    {
      ChangesOnce(cfg, es, n, i);
    }
    if n > 0 && CanAnnounce(cfg, es) {
      assert ChangeChannel(cfg.ch) in After(cfg, State(es, SwitchChannel, n, []), n + 1).orders;
    }
  }

  // ----- the driver's state and code

  class Ap {
    const bss: Bss
    const cfg: Config
    var en: Enable
    var cnt: Byte
    var orders: seq<Order>

    constructor (bss: Bss, cfg: Config, n: Byte)
      ensures this.bss == bss && this.cfg == cfg && en == SwitchChannel && cnt == n && orders == []
    {
      this.bss, this.cfg, en, cnt, orders := bss, cfg, SwitchChannel, n, [];
    }

    ghost function View(): State
      reads this, bss
    {
      State(bss.elems, en, cnt, orders)
    }

    // update_csa_ie and update_ecsa_ie
    method UpdateElement(id: Byte, data: Data) returns (updated: bool, process: bool)
      requires bss.Valid() && data != [] && bss.len + 2 + |data| <= bss.ies.Length
      modifies bss, bss.ies
      ensures bss.Valid() && IeUpdate(bss.elems, updated, process) == UpdateIe(old(bss.elems), en, cnt, id, data)
      ensures bss.ies[..FIXED_IE_LENGTH] == old(bss.ies[..FIXED_IE_LENGTH])
      ensures bss.len <= old(bss.len) + 2 + |data|
    {
      updated, process := false, false;
      if en.Disabled? || en.IeRemove? {
        return;
      }
      var p, ielen := bss.GetIe(id);
      if p != -1 && ielen == |data| && cnt > 0 {
        bss.Poke(p, Find(bss.elems, id), |data| - 1, cnt);
        updated := true;
      } else if p == -1 && cnt > 0 {
        bss.AddBcnIe(id, data);
        updated := true;
      } else if p != -1 && ielen > 0 && cnt == 0 {
        bss.RemoveBcnIe(id);
        updated, process := true, true;
      }
    }

    // ap_process_csa
    method ProcessCsa()
      modifies this
      ensures cnt == old(cnt)
      ensures en == if cnt == 0 then Processed(cfg, old(en)).0 else old(en)
      ensures orders == old(orders) + if cnt == 0 then Processed(cfg, old(en)).1 else []
      ensures cnt == 0 && old(en).SwitchChannel? ==>
        orders == old(orders) + [StopBeacon, ChangeChannel(cfg.ch)] && en.IeRemove?
      ensures cnt == 0 && old(en).StaJoinBss? && cfg.linking ==>
        orders == old(orders) + [StopBeacon, JoinBss] && en.IeRemove?
      ensures cnt == 0 && !old(en).SwitchChannel? && !(old(en).StaJoinBss? && cfg.linking) ==>
        orders == old(orders) + [StopBeacon] && en == old(en)
    {
      if cnt != 0 {
        return;
      }
      var issued := [StopBeacon];
      if en.SwitchChannel? {
        issued := issued + [ChangeChannel(cfg.ch)];
        en := IeRemove;
      } else if en.StaJoinBss? {
        if cfg.linking {
          en := IeRemove;
          issued := issued + [JoinBss];
        }
      }
      orders := orders + issued;
    }

    // The channel switch case of _update_beacon
    method UpdateBeacon()
      requires bss.Valid() && bss.len + 11 <= bss.ies.Length
      modifies this, bss, bss.ies
      ensures bss.Valid() && View() == Update(cfg, old(View()))
      ensures bss.ies[..FIXED_IE_LENGTH] == old(bss.ies[..FIXED_IE_LENGTH])
    {
      var updatedCsa, processCsa := UpdateElement(EID_CHANNEL_SWITCH, CsaData(cfg, cnt));
      var updatedEcsa, processEcsa := false, false;
      if cfg.ecsa {
        updatedEcsa, processEcsa := UpdateElement(EID_ECSA, EcsaData(cfg, cnt));
      }
      if processCsa || processEcsa {
        ProcessCsa();
      }
      if (updatedCsa || updatedEcsa) && cnt > 0 {
        cnt := cnt - 1;
      }
    }
  }

  lemma AddedSize(es: seq<Elem>, id: Byte, data: Data)
    requires Sorted(es) && !Has(es, id)
    ensures |Encode(Added(es, id, data))| <= |Encode(es)| + 2 + |data|
  {
    SortedStop(es, id);
    var k := StopAt(es, id);
    EncodeMiddle(es[..k], Elem(id, data), es[k..]);
    EncodeConcat(es[..k], es[k..]);
    assert es == es[..k] + es[k..];
  }

  lemma ShownSize(cfg: Config, es: seq<Elem>, c: Byte)
    requires Quiet(es)
    ensures |Encode(Shown(cfg, es, c))| <= |Encode(es)| + 11
  {
    FirstOf(es, EID_CHANNEL_SWITCH, EID_ECSA, CsaData(cfg, c));
    AddedSize(es, EID_CHANNEL_SWITCH, CsaData(cfg, c));
    if cfg.ecsa { AddedSize(Added(es, EID_CHANNEL_SWITCH, CsaData(cfg, c)), EID_ECSA, EcsaData(cfg, c)); }
  }

  lemma CountdownSize(w: Switch, i: nat)
    requires Starts(w)
    ensures |Encode(Expected(w, i).elems)| <= |Encode(w.es)| + 11
  {
    var c := if 1 <= i <= w.n then w.n - i + 1 else 0;
    ShownSize(w.cfg, w.es, c);
    ExpectedShows(w, i, c);
  }

  lemma ExpectedShows(w: Switch, i: nat, c: Byte)
    requires c == if 1 <= i <= w.n then w.n - i + 1 else 0
    ensures Expected(w, i).elems == Shown(w.cfg, w.es, c)
  {
  }

  lemma ExpectedEnd(w: Switch, i: nat)
    requires i > w.n && w.en.SwitchChannel? && w.orders == []
    ensures Expected(w, i).elems == w.es
    ensures Expected(w, i).orders ==
      if w.n > 0 && CanAnnounce(w.cfg, w.es) then [StopBeacon, ChangeChannel(w.cfg.ch)] else []
  {
  }

  // One update of a switch.
  method Tick(ap: Ap, ghost w: Switch, ghost i: nat)
    requires ap.bss.Valid() && Starts(w) && ap.cfg == w.cfg && ap.View() == Expected(w, i)
    requires |Encode(w.es)| + FIXED_IE_LENGTH + 22 <= ap.bss.ies.Length
    modifies ap, ap.bss, ap.bss.ies
    ensures ap.bss.Valid() && ap.View() == Expected(w, i + 1)
    ensures ap.bss.ies[..FIXED_IE_LENGTH] == old(ap.bss.ies[..FIXED_IE_LENGTH])
  {
    CountdownSize(w, i);
    ExpectedStep(w, i);
    ap.UpdateBeacon();
  }

  /** A beacon buffer put through a whole switch and more: the bytes end as they started, and the beacon is stopped
      and the channel changed, in this order and once, exactly if the switch could be announced. */
  method RunSwitch(bss: Bss, cfg: Config, n: Byte, updates: nat) returns (ap: Ap)
    requires bss.Valid() && Quiet(bss.elems) && n < updates && bss.len + 22 <= bss.ies.Length
    modifies bss, bss.ies
    ensures bss.Valid() && bss.elems == old(bss.elems) && bss.ies[..bss.len] == old(bss.ies[..bss.len])
    ensures ap.orders == if n > 0 && CanAnnounce(cfg, bss.elems) then [StopBeacon, ChangeChannel(cfg.ch)] else []
  {
    ap := new Ap(bss, cfg, n);
    ghost var w := Switch(cfg, bss.elems, SwitchChannel, n, []);
    ghost var fixed := bss.ies[..FIXED_IE_LENGTH];
    WholeBuffer(bss);
    for i := 0 to updates
      invariant ap.bss == bss && ap.cfg == cfg && bss.Valid() && fresh(ap)
      invariant ap.View() == Expected(w, i)
      invariant bss.ies[..FIXED_IE_LENGTH] == fixed
    {
      Tick(ap, w, i);
    }
    ExpectedEnd(w, updates);
    WholeBuffer(bss);
  }

  lemma WholeBuffer(bss: Bss)
    requires bss.Valid()
    ensures bss.ies[..bss.len] == bss.ies[..FIXED_IE_LENGTH] + Encode(bss.elems)
    ensures bss.len == FIXED_IE_LENGTH + |Encode(bss.elems)|
  {
  }
}
