/**
 Engine event timestamps: rendering to a boundary string and comparing boundaries
 (`_create_boundary` and `_coverage_events` in `scripts/factory_gate_protocol_live.py`).
 */
module Timestamps {
  import opened Common
  import opened Text

  const BILLION: nat := 1_000_000_000

  /** An event carries a nanosecond stamp, or only whole seconds. */
  datatype Stamp = Nanos(nanos: nat) | Seconds(seconds: nat)

  /** `_create_boundary` from the two optional fields; a stamp that is not positive does not count. */
  function StampOf(timeNano: Option<int>, time: Option<int>): Option<Stamp> {
    if timeNano.Some? && timeNano.value > 0 then Some(Nanos(timeNano.value))
    else if time.Some? && time.value > 0 then Some(Seconds(time.value))
    else None
  }

  function Render(stamp: Stamp): string {
    match stamp
    case Nanos(n) => Decimal(n / BILLION) + "." + Padded(n % BILLION, 9)
    case Seconds(s) => Decimal(s)
  }

  /** `tuple(map(int, value.split(".")))`. */
  function SortKey(boundary: string): seq<nat>
    requires forall i | 0 <= i < |Split(boundary, '.')| :: Numeral(Split(boundary, '.')[i])
  {
    var parts := Split(boundary, '.');
    seq(|parts|, i requires 0 <= i < |parts| => Value(parts[i]))
  }

  /** Python's order on tuples. */
  predicate TupleLeq(a: seq<nat>, b: seq<nat>) {
    a == [] || (b != [] && (a[0] < b[0] || (a[0] == b[0] && TupleLeq(a[1..], b[1..]))))
  }

  /** The order in which stamps are compared: by nanoseconds, whole seconds first within a second. */
  predicate StampLeq(a: Stamp, b: Stamp) {
    match (a, b)
    case (Nanos(m), Nanos(n)) => m <= n
    case (Seconds(s), Seconds(t)) => s <= t
    case (Seconds(s), Nanos(n)) => s <= n / BILLION
    case (Nanos(m), Seconds(t)) => m / BILLION < t
  }

  function KeyOf(stamp: Stamp): seq<nat> {
    match stamp
    case Nanos(n) => [n / BILLION, n % BILLION]
    case Seconds(s) => [s]
  }

  lemma KeyOfParts(boundary: string, parts: seq<string>)
    requires Split(boundary, '.') == parts && forall i | 0 <= i < |parts| :: Numeral(parts[i])
    ensures SortKey(boundary) == seq(|parts|, i requires 0 <= i < |parts| => Value(parts[i]))
  {
  }

  lemma SecondsRoundTrip(s: nat)
    ensures Split(Render(Seconds(s)), '.') == [Decimal(s)] && Numeral(Decimal(s))
    ensures SortKey(Render(Seconds(s))) == [s]
  {
    ValueOfDecimal(s);
    SplitHead(Decimal(s), "", '.');
    KeyOfParts(Decimal(s), [Decimal(s)]);
  }

  lemma TwoParts(head: string, tail: string)
    requires Numeral(head) && Numeral(tail)
    ensures Split(head + "." + tail, '.') == [head, tail] && SortKey(head + "." + tail) == [Value(head), Value(tail)]
  {
    SplitHead(head, tail, '.');
    SplitHead(tail, "", '.');
    KeyOfParts(head + "." + tail, [head, tail]);
  }

  /** The two parts of a rendered nanosecond stamp. */
  lemma PartsRoundTrip(seconds: nat, fraction: nat)
    ensures var boundary := Decimal(seconds) + "." + Padded(fraction, 9);
            && Split(boundary, '.') == [Decimal(seconds), Padded(fraction, 9)]
            && Numeral(Decimal(seconds)) && Numeral(Padded(fraction, 9))
            && SortKey(boundary) == [seconds, fraction]
  {
    ValueOfDecimal(seconds);
    ValueOfPadded(fraction, 9);
    TwoParts(Decimal(seconds), Padded(fraction, 9));
  }

  lemma DividedNanos(n: nat)
    ensures n % BILLION < BILLION && (n / BILLION) * BILLION + n % BILLION == n
  {
  }

  /** Rendering and reading back gives the seconds and the nanoseconds again. */
  lemma RenderRoundTrip(stamp: Stamp)
    ensures forall i | 0 <= i < |Split(Render(stamp), '.')| :: Numeral(Split(Render(stamp), '.')[i])
    ensures SortKey(Render(stamp)) == KeyOf(stamp)
    ensures stamp.Nanos? ==> SortKey(Render(stamp))[0] * BILLION + SortKey(Render(stamp))[1] == stamp.nanos
  {
    match stamp {
      case Seconds(s) => SecondsRoundTrip(s);
      case Nanos(n) =>
        DividedNanos(n);
        PartsRoundTrip(n / BILLION, n % BILLION);
    }
  }

  /** Comparing rendered boundaries is comparing the stamps themselves. */
  lemma RenderKeepsOrder(a: Stamp, b: Stamp)
    ensures forall i | 0 <= i < |Split(Render(a), '.')| :: Numeral(Split(Render(a), '.')[i])
    ensures forall i | 0 <= i < |Split(Render(b), '.')| :: Numeral(Split(Render(b), '.')[i])
    ensures TupleLeq(SortKey(Render(a)), SortKey(Render(b))) <==> StampLeq(a, b)
  {
    RenderRoundTrip(a);
    RenderRoundTrip(b);
    KeysKeepOrder(a, b);
  }

  lemma KeysKeepOrder(a: Stamp, b: Stamp)
    ensures TupleLeq(KeyOf(a), KeyOf(b)) <==> StampLeq(a, b)
  {
    var k, l := KeyOf(a), KeyOf(b);
    assert TupleLeq(k[1..], l[1..]) <==> |k| == 1 || (|l| == 2 && k[1] <= l[1]) by {
      if |k| == 2 && |l| == 2 {
        assert k[1..][1..] == [] && l[1..][1..] == [];
      }
    }
    if a.Nanos? && b.Nanos? {
      assert a.nanos == BILLION * k[0] + k[1] && b.nanos == BILLION * l[0] + l[1];
    }
  }

  /** Equal boundary strings come from equal stamps. */
  lemma RenderIsInjective(a: Stamp, b: Stamp)
    requires Render(a) == Render(b)
    ensures a == b
  {
    RenderRoundTrip(a);
    RenderRoundTrip(b);
  }

  lemma StampOrder(a: Stamp, b: Stamp, c: Stamp)
    ensures StampLeq(a, a)
    ensures StampLeq(a, b) || StampLeq(b, a)
    ensures StampLeq(a, b) && StampLeq(b, c) ==> StampLeq(a, c)
    ensures StampLeq(a, b) && StampLeq(b, a) ==> a == b
  {
  }
}
