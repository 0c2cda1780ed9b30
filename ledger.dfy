/**
 * The volume ledger of the four-vessel rig (volume.go): the volumes of the
 * hot-liquor tank (hlt), the mash tun, the boiler and the carboy, inferred
 * from valve, pump and float-switch events. Volumes are kept in mL and
 * reported in gallons.
 *
 * The background goroutines become step methods: TunTick and StopTunFill
 * are what the fillTun loop does on a tick or on a stop, BoilerTimerFires is
 * the end of fillBoiler's wait, FloatSwitch is the return of the poller in
 * waitForFloatSwitch. The `since` arguments are the readings of the
 * injected Timer.
 */
module Ledger {
  import opened Wrappers
  import opened Gadgets
  import opened Units

  const Hlt: string := "hlt"
  const Tun: string := "tun"
  const Boiler: string := "boiler"
  const Carboy: string := "carboy"

  /** Reading a Go map: a missing key reads as 0. */
  function Vol(volumes: map<string, real>, k: string): real {
    if k in volumes then volumes[k] else 0.0
  }

  /** The liquid in the whole rig. */
  function Total(volumes: map<string, real>): real {
    Vol(volumes, Hlt) + Vol(volumes, Tun) + Vol(volumes, Boiler) + Vol(volumes, Carboy)
  }

  /** Coefficients of the fitted hlt drain curve y = a + b x + c x^2 (x in s, y in mL). */
  datatype Fit = Fit(a: real, b: real, c: real)

  /** newVolume: mL that have left the hlt `elapsed` seconds after the tun valve opened. */
  function DrainCurve(fit: Fit, elapsed: real): (ml: real)
    ensures elapsed == 0.0 ==> ml == fit.a
  {
    fit.a + fit.b * elapsed + fit.c * elapsed * elapsed
  }

  /**
   * getNewVolume's update: both vessels are recomputed from the snapshot taken
   * when the fill began, never from their current values.
   */
  function Recomputed(volumes: map<string, real>, startHlt: real, startTun: real, drained: real): (r: map<string, real>)
    ensures Vol(r, Hlt) + Vol(r, Tun) == startHlt + startTun
    ensures Vol(r, Tun) - startTun == drained
    ensures forall k :: k != Hlt && k != Tun ==> Vol(r, k) == Vol(volumes, k)
  {
    volumes[Hlt := startHlt - drained][Tun := startTun + drained]
  }

  /** All the liquid of `from` goes to `to`, whose previous content is overwritten. */
  function Moved(volumes: map<string, real>, from: string, to: string): (r: map<string, real>)
    requires from != to
    ensures Vol(r, to) == Vol(volumes, from) && Vol(r, from) == 0.0
    ensures forall k :: k != from && k != to ==> Vol(r, k) == Vol(volumes, k)
    ensures from in {Hlt, Tun, Boiler, Carboy} && to in {Hlt, Tun, Boiler, Carboy} ==>
      Total(r) == Total(volumes) - Vol(volumes, to)
  {
    volumes[to := Vol(volumes, from)][from := 0.0]
  }

  /**
   * The volumes after the fillTun loop has recomputed once for each timer
   * reading in `sinces`, all from the same snapshot.
   */
  function AfterReadings(volumes: map<string, real>, startHlt: real, startTun: real, fit: Fit, sinces: seq<real>): map<string, real>
  {
    if |sinces| == 0 then volumes
    else
      var before := AfterReadings(volumes, startHlt, startTun, fit, sinces[..|sinces| - 1]);
      Recomputed(before, startHlt, startTun, DrainCurve(fit, sinces[|sinces| - 1]))
  }

  lemma RecomputedTwice(volumes: map<string, real>, startHlt: real, startTun: real, d1: real, d2: real)
    ensures Recomputed(Recomputed(volumes, startHlt, startTun, d1), startHlt, startTun, d2)
         == Recomputed(volumes, startHlt, startTun, d2)
  {
  }

  /**
   * However many ticks came before, the volumes depend only on the latest
   * timer reading; the hlt and the tun together hold what they held when the
   * fill began, and the rig as a whole neither gains nor loses liquid.
   */
  lemma {:induction false} OnlyLatestReadingCounts(volumes: map<string, real>, fit: Fit, sinces: seq<real>)
    requires |sinces| > 0
    ensures var r := AfterReadings(volumes, Vol(volumes, Hlt), Vol(volumes, Tun), fit, sinces);
      && r == Recomputed(volumes, Vol(volumes, Hlt), Vol(volumes, Tun), DrainCurve(fit, sinces[|sinces| - 1]))
      && Vol(r, Hlt) + Vol(r, Tun) == Vol(volumes, Hlt) + Vol(volumes, Tun)
      && Total(r) == Total(volumes)
  {
    var h, t := Vol(volumes, Hlt), Vol(volumes, Tun);
    var last := DrainCurve(fit, sinces[|sinces| - 1]);
    var init := sinces[..|sinces| - 1];
    if |init| > 0 {
      OnlyLatestReadingCounts(volumes, fit, init);
      RecomputedTwice(volumes, h, t, DrainCurve(fit, init[|init| - 1]), last);
    }
    var r := Recomputed(volumes, h, t, last);
    assert Vol(r, Boiler) == Vol(volumes, Boiler) && Vol(r, Carboy) == Vol(volumes, Carboy);
  }

  /** The callback `t.sendUpdate` of the tank that registered it, known by the tank fields it reads. */
  datatype Listener = SendUpdate(uid: string, name: string)

  /** One call of a registered listener with a volume in gallons. */
  datatype Notice = Notice(to: Listener, gallons: real)

  /** The branches of readMessage, in the order the code tries them. */
  datatype Event = OpenTun | CloseTun | OpenBoiler | CloseBoiler | OpenHlt | PumpOff | Ignored

  function Classify(msg: Message, fillingTun: bool, fillingBoiler: bool): (e: Event)
    ensures e == CloseTun ==> fillingTun
    ensures e == CloseBoiler ==> fillingBoiler
    ensures IsSwitch(msg, "tun valve", false) && !fillingTun ==> e == Ignored
    ensures IsSwitch(msg, "boiler valve", false) && !fillingBoiler ==> e == Ignored
    ensures msg.typ != "update" ==> e == Ignored
  {
    if IsSwitch(msg, "tun valve", true) then OpenTun
    else if IsSwitch(msg, "tun valve", false) && fillingTun then CloseTun
    else if IsSwitch(msg, "boiler valve", true) then OpenBoiler
    else if IsSwitch(msg, "boiler valve", false) && fillingBoiler then CloseBoiler
    else if IsSwitch(msg, "hlt valve", true) then OpenHlt
    else if IsSwitch(msg, "carboy pump", false) then PumpOff
    else Ignored
  }

  /** Construction-time settings (brewery.go's Config). */
  datatype Config = Config(a: real, b: real, c: real, hltCapacity: real, boilerFillTime: int, floatSwitchPin: string)

  /** The source of `time.After` ticks and of the Timer: the system clock or an injected one. */
  datatype Clock = SystemClock | InjectedClock(id: nat)

  /** The float-switch poller: the GPIO pin of the hlt, or an injected one. */
  datatype Poller = FloatSwitchGpio(pin: string) | InjectedPoller(id: nat)

  /** The options WithAfter, WithTimer and WithPoller of brewery.go. */
  datatype Setting = AfterSetting(after: Clock) | TimerSetting(timer: Clock) | PollerSetting(poller: Poller)

  datatype Error = GpioError

  /** The value a field ends with after the options in `opts` ran in order. */
  function AfterOf(opts: seq<Setting>, current: Option<Clock>): Option<Clock> {
    if |opts| == 0 then current
    else AfterOf(opts[1..], if opts[0].AfterSetting? then Some(opts[0].after) else current)
  }

  function TimerOf(opts: seq<Setting>, current: Option<Clock>): Option<Clock> {
    if |opts| == 0 then current
    else TimerOf(opts[1..], if opts[0].TimerSetting? then Some(opts[0].timer) else current)
  }

  function PollerOf(opts: seq<Setting>, current: Option<Poller>): Option<Poller> {
    if |opts| == 0 then current
    else PollerOf(opts[1..], if opts[0].PollerSetting? then Some(opts[0].poller) else current)
  }

  lemma {:induction false} OfSnoc(opts: seq<Setting>, s: Setting, a: Option<Clock>, t: Option<Clock>, p: Option<Poller>)
    ensures AfterOf(opts + [s], a) == (if s.AfterSetting? then Some(s.after) else AfterOf(opts, a))
    ensures TimerOf(opts + [s], t) == (if s.TimerSetting? then Some(s.timer) else TimerOf(opts, t))
    ensures PollerOf(opts + [s], p) == (if s.PollerSetting? then Some(s.poller) else PollerOf(opts, p))
  {
    if |opts| > 0 {
      assert (opts + [s])[1..] == opts[1..] + [s];
      OfSnoc(opts[1..], s,
        if opts[0].AfterSetting? then Some(opts[0].after) else a,
        if opts[0].TimerSetting? then Some(opts[0].timer) else t,
        if opts[0].PollerSetting? then Some(opts[0].poller) else p);
    }
  }

  class VolumeManager {
    var volumes: map<string, real>
    var updates: map<string, Listener>
    const fit: Fit
    const hltCapacity: real
    const boilerFillTime: int
    var after: Option<Clock>
    var timer: Option<Clock>
    var poller: Option<Poller>
    var fillingTun: bool
    var fillingBoiler: bool
    /** The snapshot `m` that fillTun takes when it starts. */
    var startHlt: real
    var startTun: real
    /** waitForFloatSwitch goroutines still blocked on the poller. */
    ghost var floatWaits: nat
    /** Every listener call so far, in order. */
    var notices: seq<Notice>

    /** The struct literal of newVolumeManager, before the options and defaults. */
    constructor (cfg: Config)
      ensures volumes == map[Hlt := 0.0, Tun := 0.0] && updates == map[]
      ensures fit == Fit(cfg.a, cfg.b, cfg.c) && hltCapacity == cfg.hltCapacity && boilerFillTime == cfg.boilerFillTime
      ensures after == None && timer == None && poller == None
      ensures !fillingTun && !fillingBoiler && floatWaits == 0 && notices == []
    {
      volumes := map[Hlt := 0.0, Tun := 0.0];
      updates := map[];
      fit := Fit(cfg.a, cfg.b, cfg.c);
      hltCapacity := cfg.hltCapacity;
      boilerFillTime := cfg.boilerFillTime;
      after, timer, poller := None, None, None;
      fillingTun, fillingBoiler := false, false;
      startHlt, startTun := 0.0, 0.0;
      floatWaits := 0;
      notices := [];
    }

    /** One option closure of brewery.go: each sets exactly one field. */
    method Apply(s: Setting)
      modifies this`after, this`timer, this`poller
      ensures s.AfterSetting? ==> after == Some(s.after) && timer == old(timer) && poller == old(poller)
      ensures s.TimerSetting? ==> timer == Some(s.timer) && after == old(after) && poller == old(poller)
      ensures s.PollerSetting? ==> poller == Some(s.poller) && after == old(after) && timer == old(timer)
    {
      match s
      case AfterSetting(a) => after := Some(a);
      case TimerSetting(t) => timer := Some(t);
      case PollerSetting(p) => poller := Some(p);
    }

    /** get: the volume of vessel k in gallons; a vessel never written reads 0. */
    function Get(k: string): (gallons: real)
      reads this
      ensures k !in volumes ==> gallons == 0.0
    {
      ToGallons(Vol(volumes, k))
    }

    /** set: store x gallons for vessel k, in mL. */
    method Set(k: string, x: real)
      modifies this`volumes
      ensures volumes == old(volumes)[k := ToMillilitres(x)]
      ensures Get(k) == x
      ensures forall j :: j != k ==> Get(j) == old(Get(j))
    {
      volumes := volumes[k := ToMillilitres(x)];
    }

    /** register: the listener for vessel k; a later registration replaces it. */
    method Register(k: string, f: Listener)
      modifies this`updates
      ensures updates == old(updates)[k := f]
    {
      updates := updates[k := f];
    }

    /** Calling `v.updates[k](x)`: the listener must be registered, or Go panics on a nil func. */
    method Notify(k: string, x: real)
      requires k in updates
      modifies this`notices
      ensures notices == old(notices) + [Notice(updates[k], x)]
    {
      notices := notices + [Notice(updates[k], x)];
    }

    /** fillTun, up to its loop: raise the flag and take the snapshot. */
    method StartTunFill()
      modifies this`fillingTun, this`startHlt, this`startTun
      ensures fillingTun && startHlt == Vol(volumes, Hlt) && startTun == Vol(volumes, Tun)
    {
      fillingTun := true;
      startHlt, startTun := Vol(volumes, Hlt), Vol(volumes, Tun);
    }

    /** getNewVolume with the timer reading `since`. */
    method Recompute(since: real)
      requires Hlt in updates && Tun in updates
      modifies this`volumes, this`notices
      ensures volumes == Recomputed(old(volumes), startHlt, startTun, DrainCurve(fit, since))
      ensures notices == old(notices) + [Notice(updates[Hlt], Get(Hlt)), Notice(updates[Tun], Get(Tun))]
    {
      var d := DrainCurve(fit, since);
      volumes := volumes[Hlt := startHlt - d][Tun := startTun + d];
      Notify(Hlt, Get(Hlt));
      Notify(Tun, Get(Tun));
    }

    /** A tick of `v.after(time.Second)` in the fillTun loop. */
    method TunTick(since: real)
      requires fillingTun && Hlt in updates && Tun in updates
      modifies this`volumes, this`notices
      ensures volumes == Recomputed(old(volumes), startHlt, startTun, DrainCurve(fit, since))
      ensures notices == old(notices) + [Notice(updates[Hlt], Get(Hlt)), Notice(updates[Tun], Get(Tun))]
    {
      Recompute(since);
    }

    /** The stop case of the fillTun loop: clear the flag and recompute one last time. */
    method StopTunFill(since: real)
      requires fillingTun && Hlt in updates && Tun in updates
      modifies this`fillingTun, this`volumes, this`notices
      ensures !fillingTun
      ensures volumes == Recomputed(old(volumes), startHlt, startTun, DrainCurve(fit, since))
      ensures notices == old(notices) + [Notice(updates[Hlt], Get(Hlt)), Notice(updates[Tun], Get(Tun))]
    {
      fillingTun := false;
      Recompute(since);
    }

    /** fillBoiler's wait ran out before any stop: all of the tun goes to the boiler. */
    method BoilerTimerFires()
      requires fillingBoiler && Boiler in updates && Tun in updates
      modifies this`fillingBoiler, this`volumes, this`notices
      ensures !fillingBoiler
      ensures volumes == Moved(old(volumes), Tun, Boiler)
      ensures Vol(volumes, Boiler) == old(Vol(volumes, Tun)) && Vol(volumes, Tun) == 0.0
      ensures notices == old(notices) + [Notice(updates[Boiler], Get(Boiler)), Notice(updates[Tun], 0.0)]
    {
      fillingBoiler := false;
      volumes := volumes[Boiler := Vol(volumes, Tun)][Tun := 0.0];
      Notify(Boiler, Get(Boiler));
      Notify(Tun, 0.0);
    }

    /** The float switch returned from Wait: an error changes nothing, otherwise the hlt is full. */
    method FloatSwitch(failed: bool)
      requires floatWaits > 0
      requires !failed ==> Hlt in updates
      modifies this`volumes, this`notices, this`floatWaits
      ensures floatWaits == old(floatWaits) - 1
      ensures failed ==> volumes == old(volumes) && notices == old(notices)
      ensures !failed ==> volumes == old(volumes)[Hlt := ToMillilitres(hltCapacity)]
      ensures !failed ==> notices == old(notices) + [Notice(updates[Hlt], hltCapacity)]
    {
      floatWaits := floatWaits - 1;
      if !failed {
        volumes := volumes[Hlt := ToMillilitres(hltCapacity)];
        Notify(Hlt, hltCapacity);
      }
    }

    /** The branch of readMessage that `msg` takes in the current state. */
    function EventOf(msg: Message): Event
      reads this
    {
      Classify(msg, fillingTun, fillingBoiler)
    }

    /**
     * What readMessage does for the branch `e` taken in the old state, with
     * `since` the timer reading at which a stopped fill recomputes.
     */
    twostate predicate Handled(e: Event, since: real)
      reads this
    {
      match e
      case OpenTun =>
        fillingTun && startHlt == Vol(volumes, Hlt) && startTun == Vol(volumes, Tun)
        && volumes == old(volumes) && notices == old(notices)
        && fillingBoiler == old(fillingBoiler) && floatWaits == old(floatWaits)
      case CloseTun =>
        !fillingTun && startHlt == old(startHlt) && startTun == old(startTun)
        && volumes == Recomputed(old(volumes), startHlt, startTun, DrainCurve(fit, since))
        && Hlt in updates && Tun in updates
        && notices == old(notices) + [Notice(updates[Hlt], Get(Hlt)), Notice(updates[Tun], Get(Tun))]
        && fillingBoiler == old(fillingBoiler) && floatWaits == old(floatWaits)
      case OpenBoiler =>
        fillingBoiler && fillingTun == old(fillingTun) && startHlt == old(startHlt) && startTun == old(startTun)
        && volumes == old(volumes) && notices == old(notices) && floatWaits == old(floatWaits)
      case CloseBoiler =>
        !fillingBoiler && fillingTun == old(fillingTun) && startHlt == old(startHlt) && startTun == old(startTun)
        && volumes == old(volumes) && notices == old(notices) && floatWaits == old(floatWaits)
      case OpenHlt =>
        floatWaits == old(floatWaits) + 1
        && fillingTun == old(fillingTun) && fillingBoiler == old(fillingBoiler)
        && startHlt == old(startHlt) && startTun == old(startTun)
        && volumes == old(volumes) && notices == old(notices)
      case PumpOff =>
        volumes == Moved(old(volumes), Boiler, Carboy)
        && Carboy in updates && Boiler in updates
        && notices == old(notices) + [Notice(updates[Carboy], Get(Carboy)), Notice(updates[Boiler], 0.0)]
        && fillingTun == old(fillingTun) && fillingBoiler == old(fillingBoiler)
        && startHlt == old(startHlt) && startTun == old(startTun) && floatWaits == old(floatWaits)
      case Ignored =>
        fillingTun == old(fillingTun) && fillingBoiler == old(fillingBoiler)
        && startHlt == old(startHlt) && startTun == old(startTun)
        && volumes == old(volumes) && notices == old(notices) && floatWaits == old(floatWaits)
    }

    /** readMessage, with `since` the timer reading at which a stopped fill recomputes. */
    method ReadMessage(msg: Message, since: real)
      requires EventOf(msg) == CloseTun ==> Hlt in updates && Tun in updates
      requires EventOf(msg) == PumpOff ==> Carboy in updates && Boiler in updates
      modifies this`fillingTun, this`startHlt, this`startTun, this`fillingBoiler
      modifies this`floatWaits, this`volumes, this`notices
      ensures Handled(old(EventOf(msg)), since)
    {
      match EventOf(msg)
      case OpenTun =>
        StartTunFill();
      case CloseTun =>
        StopTunFill(since);
      case OpenBoiler =>
        fillingBoiler := true;
      case CloseBoiler =>
        fillingBoiler := false;
      case OpenHlt =>
        floatWaits := floatWaits + 1;
      case PumpOff =>
        volumes := volumes[Carboy := Vol(volumes, Boiler)][Boiler := 0.0];
        Notify(Carboy, Get(Carboy));
        Notify(Boiler, 0.0);
      case Ignored =>
    }
  }

  /**
   * newVolumeManager: apply the options in order, default the clock and the
   * timer, and build the GPIO poller when none was injected; `gpioOk` says
   * whether the GPIO pin could be opened.
   */
  method NewVolumeManager(cfg: Config, opts: seq<Setting>, gpioOk: bool) returns (r: Result<VolumeManager, Error>)
    ensures r.Failure? <==> PollerOf(opts, None) == None && !gpioOk
    ensures r.Success? ==> var v := r.value;
      && fresh(v)
      && v.volumes == map[Hlt := 0.0, Tun := 0.0] && v.updates == map[]
      && v.fit == Fit(cfg.a, cfg.b, cfg.c) && v.hltCapacity == cfg.hltCapacity
      && v.after == Some(AfterOf(opts, None).GetOr(SystemClock))
      && v.timer == Some(TimerOf(opts, None).GetOr(SystemClock))
      && v.poller == Some(PollerOf(opts, None).GetOr(FloatSwitchGpio(cfg.floatSwitchPin)))
      && !v.fillingTun && !v.fillingBoiler && v.floatWaits == 0 && v.notices == []
  {
    var v := new VolumeManager(cfg);
    for i := 0 to |opts|
      invariant v.after == AfterOf(opts[..i], None)
      invariant v.timer == TimerOf(opts[..i], None)
      invariant v.poller == PollerOf(opts[..i], None)
      invariant v.volumes == map[Hlt := 0.0, Tun := 0.0] && v.updates == map[]
      invariant !v.fillingTun && !v.fillingBoiler && v.floatWaits == 0 && v.notices == []
    {
      OfSnoc(opts[..i], opts[i], None, None, None);
      assert opts[..i + 1] == opts[..i] + [opts[i]];
      v.Apply(opts[i]);
    }
    assert opts[..|opts|] == opts;
    if v.after == None {
      v.after := Some(SystemClock);
    }
    if v.timer == None {
      v.timer := Some(SystemClock);
    }
    if v.poller == None {
      if !gpioOk {
        return Failure(GpioError);
      }
      v.poller := Some(FloatSwitchGpio(cfg.floatSwitchPin));
    }
    return Success(v);
  }
}
