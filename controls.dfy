/** The controller actions of the planetarium that change scene parameters: the latitude,
    longitude and planet-size adjusters, the floor/daylight visibility toggle and the
    time-increment selector, together with the auto-repeat rule of the four face buttons.
    Both builds of the program share this logic. */
module Controls {
  import opened Js
  import BabyLife
  import ProgramClock

  /** A scene parameter value: the adjusters read and write numbers, the toggle flags. */
  datatype SceneValue = Num(n: real) | Flag(b: bool)

  /** `if (value)` on a scene parameter: undefined, 0 and false are falsy. */
  predicate TruthyValue(v: Option<SceneValue>)
  {
    match v
    case None => false
    case Some(Num(n)) => n != 0.0
    case Some(Flag(b)) => b
  }

  /** The distance between two numbers. */
  function Dist(a: real, b: real): real
  {
    Abs(a - b)
  }

  /** A value pushed back into `[lo, hi]`: the nearest point of the interval. */
  function Clamp(x: real, lo: real, hi: real): (r: real)
    requires lo <= hi
    ensures lo <= r <= hi
    ensures lo <= x <= hi ==> r == x
    ensures forall y | lo <= y <= hi :: Dist(r, x) <= Dist(y, x)
  {
    if x > hi then hi else if x < lo then lo else x
  }

  /** The longitude after `longitudeAdjust`: `lon + level`, wrapped by one turn when it
      leaves `[0, 360]`. */
  function LongitudeAdjusted(lon: real, level: real): (r: real)
    ensures Congruent(r, lon + level, 360.0)
    ensures Abs(r - (lon + level)) <= 360.0
    ensures 0.0 <= lon + level <= 360.0 ==> r == lon + level
    ensures 0.0 <= lon <= 360.0 && -360.0 <= level <= 360.0 ==> 0.0 <= r <= 360.0
  {
    var l := lon + level;
    if l > 360.0 then
      assert (l - 360.0 - l) / 360.0 == -1.0;
      l - 360.0
    else if l < 0.0 then
      assert (l + 360.0 - l) / 360.0 == 1.0;
      l + 360.0
    else
      assert (l - l) / 360.0 == 0.0;
      l
  }

  /** The (floor, daylight) visibility pair. */
  datatype Lighting = Lighting(floor: bool, daylight: bool)

  /** The pair after the toggle: both shown goes to both hidden, floor only goes to both
      shown, and anything else goes to floor only. */
  function NextLighting(fv: bool, dv: bool): (n: Lighting)
    ensures n != Lighting(false, true)
    ensures n.floor <==> !(fv && dv)
    ensures n.daylight <==> fv && !dv
  {
    if fv && dv then Lighting(false, false)
    else if fv then Lighting(true, true)
    else Lighting(true, false)
  }

  /** The toggle cycles (shown, shown) -> (hidden, hidden) -> (floor only) -> (shown, shown),
      so three presses return to the start; daylight without the floor leaves the cycle
      after one press and never comes back. */
  lemma {:induction false} LightingCycle(s: Lighting)
    ensures var s1 := NextLighting(s.floor, s.daylight);
            var s2 := NextLighting(s1.floor, s1.daylight);
            var s3 := NextLighting(s2.floor, s2.daylight);
            (s != Lighting(false, true) ==> s3 == s && s1 != s && s2 != s)
            && (s == Lighting(false, true) ==> s1 == Lighting(true, false))
  {
  }

  /** `changeFloorAndDaylightVisibilityAction`: reads both flags and writes the next pair. */
  method ChangeFloorAndDaylightVisibility(scene: BabyLife.BabyScene<SceneValue>)
    modifies scene
    ensures var n := NextLighting(TruthyValue(old(scene.ValueOf("floorVisible"))),
                                  TruthyValue(old(scene.ValueOf("daylightVisible"))));
            scene.params == old(scene.params)["floorVisible" := Flag(n.floor)]["daylightVisible" := Flag(n.daylight)]
            && scene.changedParams == old(scene.changedParams)["floorVisible" := Flag(n.floor)]["daylightVisible" := Flag(n.daylight)]
    ensures scene.children == old(scene.children) && scene.parentOf == old(scene.parentOf) && scene.entities == old(scene.entities)
    ensures scene.dependencies == old(scene.dependencies) && scene.initFn == old(scene.initFn) && scene.updateFn == old(scene.updateFn)
  {
    var fv := TruthyValue(scene.ValueOf("floorVisible"));
    var dv := TruthyValue(scene.ValueOf("daylightVisible"));
    if fv && dv {
      fv, dv := false, false;
    } else if fv {
      fv, dv := true, true;
    } else {
      fv, dv := true, false;
    }
    ghost var s0 := scene.Current();
    scene.ChangeState(map["floorVisible" := Flag(fv)]);
    BabyLife.AssignOne(s0, "floorVisible", Flag(fv));
    ghost var s1 := scene.Current();
    scene.ChangeState(map["daylightVisible" := Flag(dv)]);
    BabyLife.AssignOne(s1, "daylightVisible", Flag(dv));
  }

  /** `latitudeAdjust(level)`: the latitude moves by `level` and stays within [-90, 90]. */
  method LatitudeAdjust(scene: BabyLife.BabyScene<SceneValue>, level: real)
    requires "latitude" in scene.params && scene.params["latitude"].Num?
    modifies scene
    ensures var lat := Clamp(old(scene.params)["latitude"].n + level, -90.0, 90.0);
            scene.params == old(scene.params)["latitude" := Num(lat)]
            && scene.changedParams == old(scene.changedParams)["latitude" := Num(lat)]
    ensures scene.children == old(scene.children) && scene.parentOf == old(scene.parentOf) && scene.entities == old(scene.entities)
    ensures scene.dependencies == old(scene.dependencies) && scene.initFn == old(scene.initFn) && scene.updateFn == old(scene.updateFn)
  {
    var lat := scene.params["latitude"].n;
    lat := lat + level;
    if lat > 90.0 {
      lat := 90.0;
    } else if lat < -90.0 {
      lat := -90.0;
    }
    ghost var before := scene.Current();
    scene.ChangeState(map["latitude" := Num(lat)]);
    BabyLife.AssignOne(before, "latitude", Num(lat));
  }

  /** `longitudeAdjust(level)`: the longitude moves by `level`, wrapped by one turn. */
  method LongitudeAdjust(scene: BabyLife.BabyScene<SceneValue>, level: real)
    requires "longitude" in scene.params && scene.params["longitude"].Num?
    modifies scene
    ensures var lon := LongitudeAdjusted(old(scene.params)["longitude"].n, level);
            scene.params == old(scene.params)["longitude" := Num(lon)]
            && scene.changedParams == old(scene.changedParams)["longitude" := Num(lon)]
    ensures scene.children == old(scene.children) && scene.parentOf == old(scene.parentOf) && scene.entities == old(scene.entities)
    ensures scene.dependencies == old(scene.dependencies) && scene.initFn == old(scene.initFn) && scene.updateFn == old(scene.updateFn)
  {
    var lon := scene.params["longitude"].n;
    lon := lon + level;
    if lon > 360.0 {
      lon := lon - 360.0;
    } else if lon < 0.0 {
      lon := lon + 360.0;
    }
    ghost var before := scene.Current();
    scene.ChangeState(map["longitude" := Num(lon)]);
    BabyLife.AssignOne(before, "longitude", Num(lon));
  }

  /** `planetSizeAdjust(level)`, given `growth` = `Math.pow(1.2, level)`: the planet size
      multiplier is scaled and stays within [1, 1000]. */
  method PlanetSizeAdjust(scene: BabyLife.BabyScene<SceneValue>, growth: real)
    requires "planetMult" in scene.params && scene.params["planetMult"].Num?
    modifies scene
    ensures var m := Clamp(old(scene.params)["planetMult"].n * growth, 1.0, 1000.0);
            scene.params == old(scene.params)["planetMult" := Num(m)]
            && scene.changedParams == old(scene.changedParams)["planetMult" := Num(m)]
    ensures scene.children == old(scene.children) && scene.parentOf == old(scene.parentOf) && scene.entities == old(scene.entities)
    ensures scene.dependencies == old(scene.dependencies) && scene.initFn == old(scene.initFn) && scene.updateFn == old(scene.updateFn)
  {
    var pMult := scene.params["planetMult"].n;
    pMult := pMult * growth;
    if pMult < 1.0 {
      pMult := 1.0;
    } else if pMult > 1000.0 {
      pMult := 1000.0;
    }
    assert pMult == Clamp(old(scene.params)["planetMult"].n * growth, 1.0, 1000.0);
    ghost var before := scene.Current();
    scene.ChangeState(map["planetMult" := Num(pMult)]);
    BabyLife.AssignOne(before, "planetMult", Num(pMult));
  }

  /** `timeIncrementAdjust`: selects the next increment and publishes it to the scene. */
  method TimeIncrementAdjust(scene: BabyLife.BabyScene<SceneValue>, clock: ProgramClock.ProgramTime)
    requires clock.Valid()
    modifies scene, clock
    ensures clock.Valid() && clock.timeIncrementIndex == ProgramClock.NextIncrement(old(clock.timeIncrementIndex))
    ensures clock.currentSpeedIndex == old(clock.currentSpeedIndex) && clock.initialProgramTime == old(clock.initialProgramTime)
    ensures clock.programStartTime == old(clock.programStartTime) && clock.currentProgramTime == old(clock.currentProgramTime)
    ensures scene.params == old(scene.params)["currentTimeIncrement" := Num(clock.TimeIncrement())]
    ensures scene.changedParams == old(scene.changedParams)["currentTimeIncrement" := Num(clock.TimeIncrement())]
    ensures scene.children == old(scene.children) && scene.parentOf == old(scene.parentOf) && scene.entities == old(scene.entities)
    ensures scene.dependencies == old(scene.dependencies) && scene.initFn == old(scene.initFn) && scene.updateFn == old(scene.updateFn)
  {
    clock.FasterIncrement();
    ghost var before := scene.Current();
    scene.ChangeState(map["currentTimeIncrement" := Num(clock.TimeIncrement())]);
    BabyLife.AssignOne(before, "currentTimeIncrement", Num(clock.TimeIncrement()));
  }

  /** Milliseconds a button must be held before it starts repeating. */
  const ButtonStartDelay := 400

  /** Milliseconds that must pass between two repeats. */
  const ButtonRepeatDelay := 100

  /** The record kept for one face button; `hasAction` says whether an action is assigned. */
  datatype Button = Button(lastPressed: Option<int>, lastActioned: Option<int>, hasAction: bool)

  /** `if (stamp)` on a time stamp: null and the time value 0 are both falsy. */
  predicate Stamped(t: Option<int>)
  {
    t.Some? && t.value != 0
  }

  /** The auto-repeat test at time `now`: held for at least the start delay, and either
      never actioned or actioned more than the repeat delay ago. */
  predicate Due(b: Button, now: int)
  {
    Stamped(b.lastPressed) && now - b.lastPressed.value >= ButtonStartDelay
    && (!Stamped(b.lastActioned) || now - b.lastActioned.value > ButtonRepeatDelay)
  }

  /** The record after a press at time `t`. */
  function Pressed(b: Button, t: int): Button
  {
    b.(lastPressed := Some(t), lastActioned := Some(t))
  }

  /** The record after a release. */
  function Released(b: Button): Button
  {
    b.(lastPressed := None)
  }

  /** The record after an auto-repeat tick at time `now`. */
  function Repeated(b: Button, now: int): Button
  {
    if Due(b, now) then b.(lastActioned := Some(now)) else b
  }

  /** After a press the first repeat waits for the start delay (a press stamped with the
      time value 0 never repeats, since 0 is falsy). */
  lemma FirstRepeatAfterStartDelay(b: Button, t: int, now: int)
    ensures Due(Pressed(b, t), now) <==> t != 0 && now - t >= ButtonStartDelay
  {
  }

  /** After a repeat at `now` the button is due again exactly when it is still held past
      the start delay and more than the repeat delay has passed since `now`. */
  lemma RepeatSpacing(b: Button, now: int, later: int)
    requires Due(b, now) && now != 0
    ensures Due(Repeated(b, now), later)
            <==> later - b.lastPressed.value >= ButtonStartDelay && later - now > ButtonRepeatDelay
  {
  }

  /** A released button never repeats. */
  lemma ReleaseStopsRepeats(b: Button, now: int)
    ensures !Due(Released(b), now)
    ensures Repeated(Released(b), now) == Released(b)
  {
  }

  /** The index of the first button that is due but has no action (where `action()` throws
      and `forEach` stops), or the number of buttons when there is none. */
  function FirstUnassignedDue(bs: seq<Button>, now: int): (k: nat)
    ensures k <= |bs|
    ensures forall i | 0 <= i < k :: !(Due(bs[i], now) && !bs[i].hasAction)
    ensures k < |bs| ==> Due(bs[k], now) && !bs[k].hasAction
  {
    if bs == [] then 0
    else if Due(bs[0], now) && !bs[0].hasAction then 0
    else 1 + FirstUnassignedDue(bs[1..], now)
  }

  /** The indices below `n` of the buttons due at `now`, in order. */
  function DueIndices(bs: seq<Button>, now: int, n: nat): (r: seq<nat>)
    requires n <= |bs|
    ensures forall x: nat :: x in r <==> x < n && Due(bs[x], now)
    ensures forall i, j | 0 <= i < j < |r| :: r[i] < r[j]
  {
    if n == 0 then []
    else
      var prefix := DueIndices(bs, now, n - 1);
      assert forall i | 0 <= i < |prefix| :: prefix[i] < n - 1 by {
        forall i | 0 <= i < |prefix| ensures prefix[i] < n - 1 { assert prefix[i] in prefix; }
      }
      prefix + (if Due(bs[n - 1], now) then [n - 1] else [])
  }

  /** The handler of the controller buttons. */
  class InteractionHandler {
    var buttons: seq<Button>

    /** There are four face buttons: a, b, x and y. */
    ghost predicate Valid()
      reads this
    {
      |buttons| == 4
    }

    /** All four buttons start unpressed and unassigned. */
    constructor ()
      ensures Valid()
      ensures forall i | 0 <= i < 4 :: buttons[i] == Button(None, None, false)
    {
      buttons := [Button(None, None, false), Button(None, None, false), Button(None, None, false), Button(None, None, false)];
    }

    /** `setButtonAction`: button `i` gets an action. */
    method SetButtonAction(i: nat)
      requires Valid() && i < 4
      modifies this
      ensures Valid()
      ensures buttons == old(buttons)[i := old(buttons)[i].(hasAction := true)]
    {
      buttons := buttons[i := buttons[i].(hasAction := true)];
    }

    /** `notifyRepeatableButton`: a press at `now` stamps the button and fires its action
        once if it has one; a release clears the press stamp. */
    method NotifyRepeatableButton(i: nat, pressed: bool, now: int) returns (fired: bool)
      requires Valid() && i < 4
      modifies this
      ensures Valid()
      ensures pressed ==> buttons == old(buttons)[i := Pressed(old(buttons)[i], now)] && fired == old(buttons)[i].hasAction
      ensures !pressed ==> buttons == old(buttons)[i := Released(old(buttons)[i])] && !fired
    {
      if pressed {
        buttons := buttons[i := buttons[i].(lastPressed := Some(now), lastActioned := Some(now))];
        fired := buttons[i].hasAction;
      } else {
        buttons := buttons[i := buttons[i].(lastPressed := None)];
        fired := false;
      }
    }

    /** `handleAutoRepeat` at time `now`: every due button is stamped and fires, in order;
        a due button without an action is stamped and then throws, which ends the pass. */
    method HandleAutoRepeat(now: int) returns (fired: seq<nat>, threw: bool)
      requires Valid()
      modifies this
      ensures Valid()
      ensures var k := FirstUnassignedDue(old(buttons), now);
              threw == (k < 4)
              && fired == DueIndices(old(buttons), now, k)
              && forall i | 0 <= i < 4 :: buttons[i] == if i <= k then Repeated(old(buttons)[i], now) else old(buttons)[i]
    {
      ghost var k := FirstUnassignedDue(buttons, now);
      fired, threw := [], false;
      var i := 0;
      while i < |buttons| && !threw
        invariant |buttons| == 4 && 0 <= i <= 4
        invariant !threw ==> i <= k
        invariant threw ==> i == k + 1
        invariant fired == DueIndices(old(buttons), now, if threw then k else i)
        invariant forall j | 0 <= j < 4 :: buttons[j] == if j < i then Repeated(old(buttons)[j], now) else old(buttons)[j]
      {
        var b := buttons[i];
        assert b == old(buttons)[i];
        assert DueIndices(old(buttons), now, i + 1)
               == DueIndices(old(buttons), now, i) + (if Due(b, now) then [i] else []);
        if Stamped(b.lastPressed) {
          if now - b.lastPressed.value >= ButtonStartDelay {
            if !Stamped(b.lastActioned) || now - b.lastActioned.value > ButtonRepeatDelay {
              buttons := buttons[i := b.(lastActioned := Some(now))];
              if b.hasAction {
                fired := fired + [i];
              } else {
                threw := true;
              }
            }
          }
        }
        i := i + 1;
      }
    }
  }
}
