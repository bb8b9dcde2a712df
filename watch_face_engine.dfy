/**
 * The watch-face engine: the state the host's lifecycle callbacks change and
 * the once-a-second redraw timer driven by it.
 *
 * The pure part defines the engine's state as a value and one function per
 * callback; the class `Engine` holds the same state in fields and `Paint`
 * objects, and each of its methods is specified by the matching function.
 * Properties that hold across any sequence of callbacks are lemmas about
 * `Run`.
 */
module WatchFaceEngine {
  import opened Wrappers
  import opened JavaArith
  import opened WearableConstants
  import opened KeyValueStore
  import opened FramePlan

  /** The redraw period in interactive mode, in milliseconds. */
  const InteractiveUpdateRateMs: int := 1000

  /** The timer runs only while the face is visible and interactive. */
  function ShouldTimerBeRunning(visible: bool, ambient: bool): (r: bool)
    ensures r <==> (visible, ambient) == (true, false)
  {
    visible && !ambient
  }

  /** The four display states, and which of them runs the timer. */
  lemma TimerPredicateTable()
    ensures ShouldTimerBeRunning(true, false)
    ensures !ShouldTimerBeRunning(true, true)
    ensures !ShouldTimerBeRunning(false, false)
    ensures !ShouldTimerBeRunning(false, true)
  {
  }

  /**
   * The delay before the next tick, computed from the wall clock `now`
   * (milliseconds) with Java's truncating remainder.
   */
  function NextTickDelay(now: int): (d: int)
    ensures now >= 0 ==> 1 <= d <= InteractiveUpdateRateMs
    ensures now >= 0 ==> (now + d) % InteractiveUpdateRateMs == 0
  {
    InteractiveUpdateRateMs - JavaRem(now, InteractiveUpdateRateMs)
  }

  /** The next tick lands on the first whole second strictly after `now`. */
  lemma NextTickIsNextSecond(now: int, boundary: int)
    requires now >= 0
    requires now < boundary && boundary % InteractiveUpdateRateMs == 0
    ensures now < now + NextTickDelay(now) <= boundary
  {
    var q := now / 1000;
    assert now + NextTickDelay(now) == (q + 1) * 1000;
    var k := boundary / 1000;
    assert boundary == k * 1000;
  }

  /** A call the engine makes on the platform to (un)register its time-zone receiver. */
  datatype ReceiverCall = Register | Unregister

  /**
   * The engine's state.  `pending` holds the due times (milliseconds) of the
   * timer messages in the handler's queue, oldest first; `invalidations`
   * counts the redraw requests made; `minTemp` and `maxTemp` are the values
   * the last draw read from the store.
   */
  datatype EngineState = EngineState(
    visible: bool,
    ambient: bool,
    lowBitAmbient: bool,
    backgroundAntiAlias: bool,
    timeAntiAlias: bool,
    dateAntiAlias: bool,
    lowAntiAlias: bool,
    highAntiAlias: bool,
    registered: bool,
    receiverCalls: seq<ReceiverCall>,
    pending: seq<int>,
    invalidations: nat,
    minTemp: Option<string>,
    maxTemp: Option<string>)

  /** The state right after creation: hidden, interactive, text paints anti-aliased, no timer. */
  const Initial: EngineState :=
    EngineState(false, false, false, false, true, true, true, true, false, [], [], 0, None, None)

  function TimerRunning(s: EngineState): bool {
    ShouldTimerBeRunning(s.visible, s.ambient)
  }

  /** Removes every pending timer message, then queues one due now if the timer should run. */
  function TimerUpdated(s: EngineState, now: int): (r: EngineState)
    ensures r.pending == [] <==> !TimerRunning(s)
    ensures TimerRunning(s) ==> r.pending == [now]
    ensures r == s.(pending := r.pending)
  {
    s.(pending := if TimerRunning(s) then [now] else [])
  }

  /** Registers the time-zone receiver with the platform unless it already is registered. */
  function ReceiverRegistered(s: EngineState): (r: EngineState)
    ensures r.registered
    ensures s.registered ==> r == s
    ensures !s.registered ==> r == s.(registered := true, receiverCalls := s.receiverCalls + [Register])
  {
    if s.registered then s else s.(registered := true, receiverCalls := s.receiverCalls + [Register])
  }

  /** Unregisters the time-zone receiver from the platform unless it is not registered. */
  function ReceiverUnregistered(s: EngineState): (r: EngineState)
    ensures !r.registered
    ensures !s.registered ==> r == s
    ensures s.registered ==> r == s.(registered := false, receiverCalls := s.receiverCalls + [Unregister])
  {
    if !s.registered then s else s.(registered := false, receiverCalls := s.receiverCalls + [Unregister])
  }

  /** Registering twice is registering once, and so is unregistering. */
  lemma ReceiverCallsIdempotent(s: EngineState)
    ensures ReceiverRegistered(ReceiverRegistered(s)) == ReceiverRegistered(s)
    ensures ReceiverUnregistered(ReceiverUnregistered(s)) == ReceiverUnregistered(s)
  {
  }

  /** The face became visible or hidden. */
  function VisibilityChanged(s: EngineState, visible: bool, now: int): (r: EngineState)
    ensures r.visible == visible && r.registered == visible
    ensures r.ambient == s.ambient
    ensures r == s.(visible := visible, registered := visible, receiverCalls := r.receiverCalls, pending := r.pending)
    ensures r.pending == (if visible && !s.ambient then [now] else [])
  {
    var t := s.(visible := visible);
    TimerUpdated(if visible then ReceiverRegistered(t) else ReceiverUnregistered(t), now)
  }

  /** The text paints' anti-alias flags, all set to `on`. */
  function TextAntiAliasSet(s: EngineState, on: bool): EngineState {
    s.(timeAntiAlias := on, dateAntiAlias := on, lowAntiAlias := on, highAntiAlias := on)
  }

  /** The face entered (`inAmbientMode`) or left ambient mode. */
  function AmbientModeChanged(s: EngineState, inAmbientMode: bool, now: int): (r: EngineState)
    ensures r.ambient == inAmbientMode
    ensures r.pending == (if s.visible && !inAmbientMode then [now] else [])
    ensures s.ambient != inAmbientMode && s.lowBitAmbient ==>
      r.timeAntiAlias == r.dateAntiAlias == r.lowAntiAlias == r.highAntiAlias == !inAmbientMode
    ensures s.ambient == inAmbientMode || !s.lowBitAmbient ==>
      && r.timeAntiAlias == s.timeAntiAlias && r.dateAntiAlias == s.dateAntiAlias
      && r.lowAntiAlias == s.lowAntiAlias && r.highAntiAlias == s.highAntiAlias
    ensures r.backgroundAntiAlias == s.backgroundAntiAlias
    ensures r.invalidations == s.invalidations + (if s.ambient != inAmbientMode then 1 else 0)
  {
    var t := if s.ambient != inAmbientMode then
      var u := s.(ambient := inAmbientMode);
      var v := if s.lowBitAmbient then TextAntiAliasSet(u, !inAmbientMode) else u;
      v.(invalidations := v.invalidations + 1)
    else s;
    TimerUpdated(t, now)
  }

  /** The host reported the display's properties; low-bit ambient defaults to false when absent. */
  function PropertiesChanged(s: EngineState, lowBitAmbient: Option<bool>): (r: EngineState)
    ensures r.lowBitAmbient <==> lowBitAmbient == Some(true)
    ensures r == s.(lowBitAmbient := r.lowBitAmbient)
  {
    s.(lowBitAmbient := lowBitAmbient.GetOr(false))
  }

  /** The host's once-a-minute time tick: a redraw request and nothing else. */
  function TimeTicked(s: EngineState): (r: EngineState)
    ensures r.invalidations == s.invalidations + 1
    ensures r == s.(invalidations := r.invalidations)
  {
    s.(invalidations := s.invalidations + 1)
  }

  /**
   * The time zone changed: the registered receiver requests a redraw (the
   * platform delivers the broadcast only to a registered receiver).
   */
  function TimeZoneChanged(s: EngineState): (r: EngineState)
    ensures s.registered ==> r.invalidations == s.invalidations + 1
    ensures !s.registered ==> r == s
    ensures r == s.(invalidations := r.invalidations)
  {
    if s.registered then s.(invalidations := s.invalidations + 1) else s
  }

  /**
   * The handler ran for the oldest pending timer message, which the queue
   * gives up: a redraw request, then a next message due on the next whole
   * second if the timer should still run.  With no message pending, nothing
   * is delivered.
   */
  function TimerFired(s: EngineState, now: int): (r: EngineState)
    ensures s.pending == [] ==> r == s
    ensures s.pending != [] ==>
      && r.invalidations == s.invalidations + 1
      && r.pending == s.pending[1..] + (if TimerRunning(s) then [now + NextTickDelay(now)] else [])
      && r == s.(pending := r.pending, invalidations := r.invalidations)
  {
    if s.pending == [] then s
    else
      var t := s.(pending := s.pending[1..], invalidations := s.invalidations + 1);
      if TimerRunning(t) then t.(pending := t.pending + [now + NextTickDelay(now)]) else t
  }

  /** The engine was destroyed: its pending timer messages are removed. */
  function Destroyed(s: EngineState): (r: EngineState)
    ensures r.pending == []
    ensures r == s.(pending := [])
  {
    s.(pending := [])
  }

  /** A draw read the temperatures from the store. */
  function Drawn(s: EngineState, store: Store): (r: EngineState)
    ensures r.minTemp == Get(store, MinTempKey) && r.maxTemp == Get(store, MaxTempKey)
    ensures r == s.(minTemp := r.minTemp, maxTemp := r.maxTemp)
  {
    s.(minTemp := Get(store, MinTempKey), maxTemp := Get(store, MaxTempKey))
  }

  /** A host callback or a timer delivery. */
  datatype Event =
    | SetVisible(visible: bool, now: int)
    | SetAmbient(inAmbientMode: bool, now: int)
    | SetProperties(lowBit: Option<bool>)
    | TimeTick
    | TimeZoneBroadcast
    | TimerMessage(now: int)
    | Draw(store: Store)
    | Destroy

  function Step(s: EngineState, e: Event): EngineState {
    match e
    case SetVisible(v, now) => VisibilityChanged(s, v, now)
    case SetAmbient(m, now) => AmbientModeChanged(s, m, now)
    case SetProperties(b) => PropertiesChanged(s, b)
    case TimeTick => TimeTicked(s)
    case TimeZoneBroadcast => TimeZoneChanged(s)
    case TimerMessage(now) => TimerFired(s, now)
    case Draw(store) => Drawn(s, store)
    case Destroy => Destroyed(s)
  }

  /** The state after the events `es`, first event first. */
  function Run(s: EngineState, es: seq<Event>): EngineState
    decreases |es|
  {
    if es == [] then s else Run(Step(s, es[0]), es[1..])
  }

  /** At most one timer message is pending, and one only while the timer should run. */
  predicate TimerDiscipline(s: EngineState) {
    |s.pending| <= 1 && (s.pending != [] ==> TimerRunning(s))
  }

  /** A timer message is pending exactly while the timer should run. */
  predicate TimerLive(s: EngineState) {
    s.pending != [] <==> TimerRunning(s)
  }

  /** All four text paints agree on anti-aliasing, so no draw sees a mix. */
  predicate PaintsAgree(s: EngineState) {
    s.timeAntiAlias == s.dateAntiAlias == s.lowAntiAlias == s.highAntiAlias
  }

  /**
   * The platform calls alternate, starting with a registration, and the flag
   * says whether the last one registered: the receiver is never registered
   * twice nor unregistered while not registered.
   */
  predicate ReceiverCallsAlternate(s: EngineState) {
    && (forall i :: 0 <= i < |s.receiverCalls| ==> s.receiverCalls[i] == (if i % 2 == 0 then Register else Unregister))
    && (s.registered <==> |s.receiverCalls| % 2 == 1)
  }

  predicate EngineInvariant(s: EngineState) {
    TimerDiscipline(s) && PaintsAgree(s) && ReceiverCallsAlternate(s)
  }

  lemma InitialInvariant()
    ensures EngineInvariant(Initial) && TimerLive(Initial)
  {
  }

  lemma StepKeepsInvariant(s: EngineState, e: Event)
    requires EngineInvariant(s)
    ensures EngineInvariant(Step(s, e))
    ensures Step(s, e).backgroundAntiAlias == s.backgroundAntiAlias
    ensures !e.Destroy? && TimerLive(s) ==> TimerLive(Step(s, e))
  {
    match e
    case SetVisible(v, now) => VisibilityKeepsInvariant(s, v, now);
    case SetAmbient(m, now) => AmbientKeepsInvariant(s, m, now);
    case SetProperties(b) =>
    case TimeTick =>
    case TimeZoneBroadcast =>
    case TimerMessage(now) => TimerFiredKeepsInvariant(s, now);
    case Draw(store) =>
    case Destroy =>
  }

  lemma VisibilityKeepsInvariant(s: EngineState, visible: bool, now: int)
    requires EngineInvariant(s)
    ensures EngineInvariant(VisibilityChanged(s, visible, now)) && TimerLive(VisibilityChanged(s, visible, now))
  {
    var t := s.(visible := visible);
    var u := if visible then ReceiverRegistered(t) else ReceiverUnregistered(t);
    assert ReceiverCallsAlternate(u);
  }

  lemma AmbientKeepsInvariant(s: EngineState, inAmbientMode: bool, now: int)
    requires EngineInvariant(s)
    ensures EngineInvariant(AmbientModeChanged(s, inAmbientMode, now)) && TimerLive(AmbientModeChanged(s, inAmbientMode, now))
  {
  }

  lemma TimerFiredKeepsInvariant(s: EngineState, now: int)
    requires EngineInvariant(s)
    ensures EngineInvariant(TimerFired(s, now))
    ensures TimerLive(s) ==> TimerLive(TimerFired(s, now))
  {
  }

  /** The invariant holds after any sequence of callbacks, and the background paint is never touched. */
  lemma {:induction false} RunKeepsInvariant(s: EngineState, es: seq<Event>)
    requires EngineInvariant(s)
    ensures EngineInvariant(Run(s, es))
    ensures Run(s, es).backgroundAntiAlias == s.backgroundAntiAlias
    decreases |es|
  {
    if es != [] {
      StepKeepsInvariant(s, es[0]);
      RunKeepsInvariant(Step(s, es[0]), es[1..]);
    }
  }

  /** Until the engine is destroyed, a tick is pending exactly while the face is visible and interactive. */
  lemma {:induction false} RunKeepsTimerLive(s: EngineState, es: seq<Event>)
    requires EngineInvariant(s) && TimerLive(s)
    requires forall i :: 0 <= i < |es| ==> !es[i].Destroy?
    ensures TimerLive(Run(s, es))
    decreases |es|
  {
    if es != [] {
      StepKeepsInvariant(s, es[0]);
      RunKeepsTimerLive(Step(s, es[0]), es[1..]);
    }
  }

  /** From creation, at most one timer message is ever pending. */
  lemma AtMostOneTickPending(es: seq<Event>)
    ensures |Run(Initial, es).pending| <= 1
  {
    InitialInvariant();
    RunKeepsInvariant(Initial, es);
  }

  /**
   * Every message the handler queues for itself is due on a whole second,
   * after `now` and at most one period later.
   */
  lemma TimerRescheduleAligned(s: EngineState, now: int)
    requires TimerDiscipline(s) && s.pending != [] && now >= 0
    ensures var r := TimerFired(s, now);
      r.pending == [] ||
      (|r.pending| == 1 && r.pending[0] % InteractiveUpdateRateMs == 0 &&
       now < r.pending[0] <= now + InteractiveUpdateRateMs)
  {
  }

  /** Anti-aliasing is on exactly in interactive mode. */
  predicate StyledForMode(s: EngineState) {
    PaintsAgree(s) && s.timeAntiAlias == !s.ambient
  }

  /**
   * While the display keeps reporting low-bit ambient, the text paints are
   * anti-aliased exactly in interactive mode.
   */
  lemma {:induction false} LowBitAmbientStyling(s: EngineState, es: seq<Event>)
    requires s.lowBitAmbient && StyledForMode(s)
    requires forall i :: 0 <= i < |es| ==> es[i].SetProperties? ==> es[i].lowBit == Some(true)
    ensures Run(s, es).lowBitAmbient && StyledForMode(Run(s, es))
    decreases |es|
  {
    if es != [] {
      RunKeepsLowBitStep(s, es[0]);
      LowBitAmbientStyling(Step(s, es[0]), es[1..]);
    }
  }

  lemma RunKeepsLowBitStep(s: EngineState, e: Event)
    requires s.lowBitAmbient && StyledForMode(s)
    requires e.SetProperties? ==> e.lowBit == Some(true)
    ensures Step(s, e).lowBitAmbient && StyledForMode(Step(s, e))
  {
    match e
    case SetAmbient(m, now) =>
      var r := AmbientModeChanged(s, m, now);
      assert r.timeAntiAlias == !r.ambient;
    case _ =>
  }

  /** A paint; the engine changes only its anti-alias flag. */
  class Paint {
    var antiAlias: bool

    constructor (antiAlias: bool)
      ensures this.antiAlias == antiAlias
    {
      this.antiAlias := antiAlias;
    }
  }

  /** The engine object the host drives through its callbacks. */
  class Engine {
    const backgroundPaint: Paint
    const timePaint: Paint
    const datePaint: Paint
    const lowPaint: Paint
    const highPaint: Paint

    var visible: bool
    var ambient: bool
    var lowBitAmbient: bool
    var registeredTimeZoneReceiver: bool
    var receiverCalls: seq<ReceiverCall>
    var pending: seq<int>
    var invalidations: nat
    var minTemp: Option<string>
    var maxTemp: Option<string>

    /** The five paints are distinct objects. */
    predicate PaintsDistinct()
    {
      && backgroundPaint != timePaint && backgroundPaint != datePaint
      && backgroundPaint != lowPaint && backgroundPaint != highPaint
      && timePaint != datePaint && timePaint != lowPaint && timePaint != highPaint
      && datePaint != lowPaint && datePaint != highPaint
      && lowPaint != highPaint
    }

    function State(): EngineState
      reads this, backgroundPaint, timePaint, datePaint, lowPaint, highPaint
    {
      EngineState(visible, ambient, lowBitAmbient,
                  backgroundPaint.antiAlias, timePaint.antiAlias, datePaint.antiAlias,
                  lowPaint.antiAlias, highPaint.antiAlias,
                  registeredTimeZoneReceiver, receiverCalls, pending, invalidations, minTemp, maxTemp)
    }

    ghost predicate Valid()
      reads this, backgroundPaint, timePaint, datePaint, lowPaint, highPaint
    {
      PaintsDistinct() && EngineInvariant(State())
    }

    /** Creation: a plain background paint and four anti-aliased text paints. */
    constructor ()
      ensures Valid() && State() == Initial
    {
      backgroundPaint := new Paint(false);
      timePaint := new Paint(true);
      datePaint := new Paint(true);
      lowPaint := new Paint(true);
      highPaint := new Paint(true);
      visible, ambient, lowBitAmbient := false, false, false;
      registeredTimeZoneReceiver := false;
      receiverCalls := [];
      pending := [];
      invalidations := 0;
      minTemp, maxTemp := None, None;
    }

    /** Requests a redraw. */
    method Invalidate()
      modifies this`invalidations
      ensures invalidations == old(invalidations) + 1
    {
      invalidations := invalidations + 1;
    }

    /** Starts the timer if it should run, after removing every pending timer message. */
    method UpdateTimer(now: int)
      modifies this`pending
      ensures State() == TimerUpdated(old(State()), now)
    {
      pending := [];
      if ShouldTimerBeRunning(visible, ambient) {
        pending := pending + [now];
      }
    }

    method RegisterReceiver()
      modifies this`registeredTimeZoneReceiver, this`receiverCalls
      ensures State() == ReceiverRegistered(old(State()))
    {
      if registeredTimeZoneReceiver {
        return;
      }
      registeredTimeZoneReceiver := true;
      receiverCalls := receiverCalls + [Register];
    }

    method UnregisterReceiver()
      modifies this`registeredTimeZoneReceiver, this`receiverCalls
      ensures State() == ReceiverUnregistered(old(State()))
    {
      if !registeredTimeZoneReceiver {
        return;
      }
      registeredTimeZoneReceiver := false;
      receiverCalls := receiverCalls + [Unregister];
    }

    method OnVisibilityChanged(visible: bool, now: int)
      requires Valid()
      modifies this
      ensures Valid() && State() == VisibilityChanged(old(State()), visible, now)
    {
      this.visible := visible;
      if visible {
        RegisterReceiver();
      } else {
        UnregisterReceiver();
      }
      UpdateTimer(now);
    }

    method OnPropertiesChanged(lowBitAmbient: Option<bool>)
      requires Valid()
      modifies this
      ensures Valid() && State() == PropertiesChanged(old(State()), lowBitAmbient)
    {
      this.lowBitAmbient := lowBitAmbient.GetOr(false);
    }

    method OnTimeTick()
      requires Valid()
      modifies this
      ensures Valid() && State() == TimeTicked(old(State()))
    {
      Invalidate();
    }

    /** The time-zone receiver's callback, which the platform makes only while it is registered. */
    method TimeZoneReceiverOnReceive()
      requires Valid() && registeredTimeZoneReceiver
      modifies this
      ensures Valid() && State() == TimeZoneChanged(old(State()))
    {
      Invalidate();
    }

    method OnAmbientModeChanged(inAmbientMode: bool, now: int)
      requires Valid()
      modifies this, timePaint, datePaint, lowPaint, highPaint
      ensures Valid() && State() == AmbientModeChanged(old(State()), inAmbientMode, now)
      ensures unchanged(backgroundPaint)
    {
      if ambient != inAmbientMode {
        ambient := inAmbientMode;
        if lowBitAmbient {
          timePaint.antiAlias := !inAmbientMode;
          datePaint.antiAlias := !inAmbientMode;
          lowPaint.antiAlias := !inAmbientMode;
          highPaint.antiAlias := !inAmbientMode;
        }
        Invalidate();
      }
      UpdateTimer(now);
    }

    /** The handler's callback for the timer message the queue has just given up. */
    method HandleMessage(now: int)
      requires Valid() && pending != []
      modifies this
      ensures Valid() && State() == TimerFired(old(State()), now)
    {
      pending := pending[1..];
      Invalidate();
      if ShouldTimerBeRunning(visible, ambient) {
        pending := pending + [now + NextTickDelay(now)];
      }
    }

    method OnDestroy()
      requires Valid()
      modifies this
      ensures Valid() && State() == Destroyed(old(State()))
    {
      pending := [];
    }

    /**
     * Decides the frame for the time of day `hour:minute:second`, reading the
     * weather from `store`; `decodes` tells whether the icon decoder accepts
     * an encoded string.
     */
    method OnDraw(hour: nat, minute: nat, second: nat, store: Store,
                  decodes: string -> bool, width: int, height: int) returns (frame: Frame)
      requires Valid()
      modifies this
      ensures Valid() && State() == Drawn(old(State()), store)
      ensures frame == Render(ambient, hour, minute, second, store, decodes, width, height)
    {
      minTemp := Get(store, MinTempKey);
      maxTemp := Get(store, MaxTempKey);
      var resId := Get(store, ResIdKey);
      var background := if ambient then SolidBlack else BackgroundRect(width, height);
      var text := TimeText.FormatTime(hour, minute, second, ambient);
      var weather: Weather;
      if minTemp.Some? && maxTemp.Some? && resId.Some? {
        var icon: Option<Icon> := None;
        if decodes(resId.value) {
          var w, h := JavaDiv(width, 4), JavaDiv(height, 4);
          icon := Some(Icon(resId.value, w, h));
        }
        weather := Temperatures(icon, minTemp.value, maxTemp.value);
      } else {
        weather := NoData(NoDataText);
      }
      frame := Frame(background, text, weather);
    }
  }
}
