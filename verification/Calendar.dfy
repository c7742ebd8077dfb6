/** The in-game calendar and the clock of the world: mixed-radix dates, and layers that are ticked only
    when their interval has passed. */
module Calendar {

  // Thirty days a month, twelve months a year.
  datatype GameDateTime = GameDateTime(year: int, month: int, day: int, hour: int, minute: int, second: int) {
    // Python's floor division and modulo; every divisor is positive.
    function Advance(hours: int, days: int, seconds: int): GameDateTime {
      var totalSeconds := second + seconds;
      var totalMinutes := minute + totalSeconds / 60;
      var totalHours := hour + hours + totalMinutes / 60;
      var totalDays := day + days + totalHours / 24;
      var months := month + (totalDays - 1) / 30;
      GameDateTime(year + (months - 1) / 12, (months - 1) % 12 + 1, (totalDays - 1) % 30 + 1,
                   totalHours % 24, totalMinutes % 60, totalSeconds % 60)
    }

    function ToTotalSeconds(): int {
      ((year - 1) * 12 + (month - 1)) * 30 * 86400 + (day - 1) * 86400 + hour * 3600 + minute * 60 + second
    }

    predicate Normalized() {
      1 <= month <= 12 && 1 <= day <= 30 && 0 <= hour < 24 && 0 <= minute < 60 && 0 <= second < 60
    }
  }

  /** Advancing adds exactly what it is told, whatever the date and whatever the signs, and normalizes. */
  lemma AdvanceAddsSeconds(t: GameDateTime, hours: int, days: int, seconds: int)
    ensures t.Advance(hours, days, seconds).Normalized()
    ensures t.Advance(hours, days, seconds).ToTotalSeconds()
         == t.ToTotalSeconds() + 86400 * days + 3600 * hours + seconds
  {
  }

  lemma TotalIsInjective(t: GameDateTime, u: GameDateTime)
    requires t.Normalized() && u.Normalized() && t.ToTotalSeconds() == u.ToTotalSeconds()
    ensures t == u
  {
    var months, months' := (t.year - 1) * 12 + (t.month - 1), (u.year - 1) * 12 + (u.month - 1);
    var days, days' := months * 30 + (t.day - 1), months' * 30 + (u.day - 1);
    var hours, hours' := days * 24 + t.hour, days' * 24 + u.hour;
    var minutes, minutes' := hours * 60 + t.minute, hours' * 60 + u.minute;
    assert minutes == minutes' && t.second == u.second;
    assert hours == hours' && t.minute == u.minute;
    assert days == days' && t.hour == u.hour;
    assert months == months' && t.day == u.day;
  }

  // The date so many seconds after the epoch.
  function FromSeconds(n: int): (t: GameDateTime)
    ensures t.Normalized() && t.ToTotalSeconds() == n
  {
    AdvanceAddsSeconds(GameDateTime(1, 1, 1, 0, 0, 0), 0, 0, n);
    GameDateTime(1, 1, 1, 0, 0, 0).Advance(0, 0, n)
  }

  /** Normalized dates and seconds since the epoch are in bijection. */
  lemma DatesAreSeconds(t: GameDateTime, n: int)
    requires t.Normalized()
    ensures t.ToTotalSeconds() == n <==> t == FromSeconds(n)
  {
    if t.ToTotalSeconds() == n {
      TotalIsInjective(t, FromSeconds(n));
    }
  }

  /** Waiting twice is waiting once for the sum. */
  lemma AdvanceComposes(t: GameDateTime, a: int, b: int)
    ensures t.Advance(0, 0, a).Advance(0, 0, b) == t.Advance(0, 0, a + b)
  {
    AdvanceAddsSeconds(t, 0, 0, a);
    AdvanceAddsSeconds(t.Advance(0, 0, a), 0, 0, b);
    AdvanceAddsSeconds(t, 0, 0, a + b);
    TotalIsInjective(t.Advance(0, 0, a).Advance(0, 0, b), t.Advance(0, 0, a + b));
  }
}

module WorldClock {
  import opened Grid
  import opened Calendar

  datatype Layer = Layer(name: string, tickInterval: int)

  // A tick handed to the layer of that name.
  datatype Tick = Tick(layer: string, delta: int)

  datatype Clock = Clock(time: GameDateTime, lastTick: map<string, GameDateTime>)

  datatype Pass = Pass(clock: Clock, ticks: seq<Tick>)

  ghost predicate Knows(layers: seq<Layer>, c: Clock) {
    forall i :: 0 <= i < |layers| ==> layers[i].name in c.lastTick
  }

  function Start(time: GameDateTime, layers: seq<Layer>): (c: Clock)
    ensures Knows(layers, c)
  {
    Clock(time, map i | 0 <= i < |layers| :: layers[i].name := time)
  }

  function TickLayer(l: Layer, p: Pass): Pass
    requires l.name in p.clock.lastTick
  {
    var elapsed := p.clock.time.ToTotalSeconds() - p.clock.lastTick[l.name].ToTotalSeconds();
    if l.tickInterval == 0 || elapsed >= l.tickInterval then
      Pass(p.clock.(lastTick := p.clock.lastTick[l.name := p.clock.time]), p.ticks + [Tick(l.name, elapsed)])
    else p
  }

  function TickLayers(layers: seq<Layer>, c: Clock): (p: Pass)
    requires Knows(layers, c)
    ensures p.clock.lastTick.Keys == c.lastTick.Keys && p.clock.time == c.time
  {
    if layers == [] then Pass(c, [])
    else TickLayer(layers[|layers| - 1], TickLayers(layers[..|layers| - 1], c))
  }

  function Advanced(layers: seq<Layer>, c: Clock, seconds: int): (p: Pass)
    requires Knows(layers, c)
    ensures Knows(layers, p.clock)
  {
    TickLayers(layers, c.(time := c.time.Advance(0, 0, seconds)))
  }

  // Everything the layers are handed while the world is advanced by the deltas, one after the other.
  function Run(layers: seq<Layer>, start: GameDateTime, deltas: seq<int>): (p: Pass)
    ensures Knows(layers, p.clock)
  {
    if deltas == [] then Pass(Start(start, layers), [])
    else
      var before := Run(layers, start, deltas[..|deltas| - 1]);
      var pass := Advanced(layers, before.clock, deltas[|deltas| - 1]);
      Pass(pass.clock, before.ticks + pass.ticks)
  }

  function Delivered(ticks: seq<Tick>, name: string): int {
    if ticks == [] then 0
    else Delivered(ticks[..|ticks| - 1], name) + if ticks[|ticks| - 1].layer == name then ticks[|ticks| - 1].delta
        else 0
  }

  function Sum(deltas: seq<int>): int {
    if deltas == [] then 0 else Sum(deltas[..|deltas| - 1]) + deltas[|deltas| - 1]
  }

  lemma {:induction false} DeliveredAppends(a: seq<Tick>, b: seq<Tick>, name: string)
    ensures Delivered(a + b, name) == Delivered(a, name) + Delivered(b, name)
  {
    if b == [] {
      assert a + b == a;
    } else {
      assert (a + b)[..|a + b| - 1] == a + b[..|b| - 1];
      DeliveredAppends(a, b[..|b| - 1], name);
    }
  }

  function LastSeconds(c: Clock, name: string): int
    requires name in c.lastTick
  {
    c.lastTick[name].ToTotalSeconds()
  }

  lemma TickLayerDelivers(l: Layer, p: Pass, name: string)
    requires l.name in p.clock.lastTick && name in p.clock.lastTick
    ensures
      var q := TickLayer(l, p);
      && q.clock.time == p.clock.time
      && Delivered(q.ticks, name) - Delivered(p.ticks, name) == LastSeconds(q.clock, name) - LastSeconds(p.clock, name)
      && (q.clock.lastTick[name] == p.clock.lastTick[name] || q.clock.lastTick[name] == p.clock.time)
      && (l.name == name && l.tickInterval > 0
          ==> p.clock.time.ToTotalSeconds() - LastSeconds(q.clock, name) < l.tickInterval)
      && (l.name == name && l.tickInterval == 0 ==> q.clock.lastTick[name] == p.clock.time)
  {
    var q := TickLayer(l, p);
    if q != p {
      assert q.ticks[..|q.ticks| - 1] == p.ticks;
    }
  }

  // What a layer has been handed, and what it may still be owed.
  ghost predicate Settled(layers: seq<Layer>, c: Clock) {
    forall i :: 0 <= i < |layers| ==> layers[i].name in c.lastTick && Owed(c, layers[i])
  }

  ghost predicate Owed(c: Clock, l: Layer)
    requires l.name in c.lastTick
  {
    var owed := c.time.ToTotalSeconds() - LastSeconds(c, l.name);
    if l.tickInterval == 0 then owed == 0 else l.tickInterval > 0 ==> owed < l.tickInterval
  }

  lemma {:induction false} TickLayersDelivers(layers: seq<Layer>, c: Clock, name: string)
    requires Knows(layers, c) && name in c.lastTick
    ensures
      var p := TickLayers(layers, c);
      && Delivered(p.ticks, name) == LastSeconds(p.clock, name) - LastSeconds(c, name)
      && (p.clock.lastTick[name] == c.lastTick[name] || p.clock.lastTick[name] == c.time)
      && (forall l :: l in layers && l.name == name ==> Owed(p.clock, l))
  {
    if layers != [] {
      var front, l := layers[..|layers| - 1], layers[|layers| - 1];
      TickLayersDelivers(front, c, name);
      TickLayerDelivers(l, TickLayers(front, c), name);
      var p, q := TickLayers(front, c), TickLayers(layers, c);
      forall k | k in layers && k.name == name ensures Owed(q.clock, k) {
        assert k == l || k in front;
      }
    }
  }

  /** Over any run the seconds handed to a layer are exactly those from the start to its last tick; what
      it is still owed stays below its tick interval. With deltas that are never negative, nothing is
      handed out ahead of time. */
  lemma {:induction false} TicksAddUp(layers: seq<Layer>, start: GameDateTime, deltas: seq<int>, l: Layer)
    requires l in layers
    ensures
      var p := Run(layers, start, deltas);
      && p.clock.time.ToTotalSeconds() == start.ToTotalSeconds() + Sum(deltas)
      && Delivered(p.ticks, l.name) == LastSeconds(p.clock, l.name) - start.ToTotalSeconds()
      && Owed(p.clock, l)
      && ((forall i :: 0 <= i < |deltas| ==> deltas[i] >= 0)
          ==> LastSeconds(p.clock, l.name) <= p.clock.time.ToTotalSeconds())
  {
    if deltas != [] {
      var front, d := deltas[..|deltas| - 1], deltas[|deltas| - 1];
      TicksAddUp(layers, start, front, l);
      var before := Run(layers, start, front);
      var c := before.clock.(time := before.clock.time.Advance(0, 0, d));
      AdvanceAddsSeconds(before.clock.time, 0, 0, d);
      TickLayersDelivers(layers, c, l.name);
      DeliveredAppends(before.ticks, TickLayers(layers, c).ticks, l.name);
    }
  }

  predicate DifferentNames(layers: seq<Layer>) {
    forall i, j :: 0 <= i < j < |layers| ==> layers[i].name != layers[j].name
  }

  // The seconds since the layer's last tick.
  function SinceTick(c: Clock, l: Layer): int
    requires l.name in c.lastTick
  {
    c.time.ToTotalSeconds() - c.lastTick[l.name].ToTotalSeconds()
  }

  // A layer without an interval is due always, any other once its interval has passed.
  predicate Due(c: Clock, l: Layer)
    requires l.name in c.lastTick
  {
    l.tickInterval == 0 || SinceTick(c, l) >= l.tickInterval
  }

  lemma {:induction false} OthersKeepTheirTick(layers: seq<Layer>, c: Clock, name: string)
    requires Knows(layers, c) && name in c.lastTick && forall i :: 0 <= i < |layers| ==> layers[i].name != name
    ensures TickLayers(layers, c).clock.lastTick[name] == c.lastTick[name]
  {
    if layers != [] {
      OthersKeepTheirTick(layers[..|layers| - 1], c, name);
    }
  }

  /** One pass hands exactly the layers that are due the seconds since their last tick, in the order of the
      layers, and the others keep their last ticks. */
  lemma {:induction false} ExactlyTheDueTick(layers: seq<Layer>, c: Clock)
    requires DifferentNames(layers) && Knows(layers, c)
    ensures TickLayers(layers, c).ticks == DueTicks(layers, c)
    ensures forall i :: 0 <= i < |layers| ==>
              TickLayers(layers, c).clock.lastTick[layers[i].name]
                == if Due(c, layers[i]) then c.time else c.lastTick[layers[i].name]
  {
    if layers != [] {
      var front, l := layers[..|layers| - 1], layers[|layers| - 1];
      ExactlyTheDueTick(front, c);
      OthersKeepTheirTick(front, c, l.name);
      TickOne(l, TickLayers(front, c), c);
      forall i | 0 <= i < |layers|
        ensures TickLayers(layers, c).clock.lastTick[layers[i].name]
             == if Due(c, layers[i]) then c.time else c.lastTick[layers[i].name]
      {
        assert i < |front| ==> front[i] == layers[i];
      }
    }
  }

  lemma TickOne(l: Layer, p: Pass, c: Clock)
    requires l.name in p.clock.lastTick && l.name in c.lastTick && p.clock.time == c.time
    requires p.clock.lastTick[l.name] == c.lastTick[l.name]
    ensures TickLayer(l, p).ticks == p.ticks + if Due(c, l) then [Tick(l.name, SinceTick(c, l))] else []
    ensures TickLayer(l, p).clock.lastTick == if Due(c, l) then p.clock.lastTick[l.name := c.time] else p.clock.lastTick
  {
  }

  function DueTicks(layers: seq<Layer>, c: Clock): seq<Tick>
    requires Knows(layers, c)
  {
    if layers == [] then []
    else
      var front, l := layers[..|layers| - 1], layers[|layers| - 1];
      DueTicks(front, c) + if Due(c, l) then [Tick(l.name, SinceTick(c, l))] else []
  }

  class World {
    const layers: seq<Layer>
    var time: GameDateTime
    var lastTickTime: map<string, GameDateTime>

    ghost predicate Valid()
      reads this
    {
      Knows(layers, View())
    }

    ghost function View(): Clock
      reads this
    {
      Clock(time, lastTickTime)
    }

    constructor (time: GameDateTime, layers: seq<Layer>)
      ensures Valid() && this.layers == layers && View() == Start(time, layers)
    {
      this.time, this.layers := time, layers;
      lastTickTime := Start(time, layers).lastTick;
    }

    method AdvanceTime(seconds: int) returns (ticks: seq<Tick>)
      requires Valid()
      modifies this
      ensures Valid() && Pass(View(), ticks) == Advanced(layers, old(View()), seconds)
      ensures time.ToTotalSeconds() == old(time).ToTotalSeconds() + seconds
    {
      AdvanceAddsSeconds(time, 0, 0, seconds);
      time := time.Advance(0, 0, seconds);
      var now := time.ToTotalSeconds();
      ticks := [];
      ghost var c := View();
      for i := 0 to |layers|
        invariant time == c.time && Valid() && Pass(View(), ticks) == TickLayers(layers[..i], c)
      {
        assert layers[..i + 1][..i] == layers[..i];
        var layer := layers[i];
        var elapsed := now - lastTickTime[layer.name].ToTotalSeconds();
        if layer.tickInterval == 0 || elapsed >= layer.tickInterval {
          ticks := ticks + [Tick(layer.name, elapsed)];
          lastTickTime := lastTickTime[layer.name := time];
        }
      }
      assert layers[..|layers|] == layers;
    }

    /** With nobody active, time goes exactly to the nearest wake time, never back and never past it. */
    method FastForward(nearestWake: Option<int>) returns (advanced: bool, ticks: seq<Tick>)
      requires Valid()
      modifies this
      ensures Valid() && (advanced <==> nearestWake.Some?)
      ensures nearestWake.Some? && nearestWake.value > old(time).ToTotalSeconds() ==>
        && time.ToTotalSeconds() == nearestWake.value
        && Pass(View(), ticks) == Advanced(layers, old(View()), nearestWake.value - old(time).ToTotalSeconds())
      ensures nearestWake.None? || nearestWake.value <= old(time).ToTotalSeconds()
              ==> View() == old(View()) && ticks == []
    {
      ticks := [];
      if nearestWake.None? {
        return false, [];
      }
      var delta := nearestWake.value - time.ToTotalSeconds();
      if delta <= 0 {
        return true, [];
      }
      ticks := AdvanceTime(delta);
      advanced := true;
    }
  }
}
