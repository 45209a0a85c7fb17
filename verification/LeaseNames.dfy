// Lease file names: sorting them as strings is serving them in arrival order.
module LeaseNames {
  import opened Decimal

  // The nanoseconds with at least 20 digits, then the random id as 16 hexadecimal ones.
  function FileName(nanos: nat, id: nat): string {
    Digits(nanos, 20, 10) + "-" + Digits(id, 16, 16) + ".lease"
  }

  // The number that stands for the name in Protocol.
  function Key(nanos: nat, id: nat): nat {
    nanos * U64 + id
  }

  predicate Earlier(a: nat, i: nat, b: nat, j: nat) {
    a < b || (a == b && i < j)
  }

  const LIMIT: nat := 100_000_000_000_000_000_000

  lemma Limits()
    ensures Pow(10, 20) == LIMIT && Pow(16, 16) == U64
  {
    assert Pow(10, 5) == 100_000 && Pow(10, 10) == 10_000_000_000 && Pow(10, 15) == 1_000_000_000_000_000;
    assert Pow(16, 4) == 0x1_0000 && Pow(16, 8) == 0x1_0000_0000 && Pow(16, 12) == 0x1_0000_0000_0000;
  }

  function Tail(id: nat): string {
    "-" + (Digits(id, 16, 16) + ".lease")
  }

  lemma TailOrder(i: nat, j: nat)
    requires i < U64 && j < U64
    ensures Before(Tail(i), Tail(j)) <==> i < j
  {
    Limits();
    var u, v := Digits(i, 16, 16), Digits(j, 16, 16);
    DigitsOrder(i, j, 16, 16);
    BeforeSplit("-", u + ".lease", "-", v + ".lease");
    BeforeSplit(u, ".lease", v, ".lease");
    NotBeforeItself(".lease");
    NotBeforeItself("-");
  }

  // File names compare as (nanoseconds, random id), and so do their keys.
  lemma NameOrder(a: nat, i: nat, b: nat, j: nat)
    requires a < LIMIT && b < LIMIT && i < U64 && j < U64
    ensures Before(FileName(a, i), FileName(b, j)) <==> Earlier(a, i, b, j)
  {
    Limits();
    DigitsOrder(a, b, 20, 10);
    assert FileName(a, i) == Digits(a, 20, 10) + Tail(i) && FileName(b, j) == Digits(b, 20, 10) + Tail(j);
    BeforeSplit(Digits(a, 20, 10), Tail(i), Digits(b, 20, 10), Tail(j));
    TailOrder(i, j);
  }

  // The keys of Protocol are ordered like the file names.
  lemma KeyOrder(a: nat, i: nat, b: nat, j: nat)
    requires a < LIMIT && b < LIMIT && i < U64 && j < U64
    ensures Before(FileName(a, i), FileName(b, j)) <==> Key(a, i) < Key(b, j)
  {
    NameOrder(a, i, b, j);
  }

  lemma {:induction false} NotBeforeItself(s: string)
    ensures !Before(s, s)
  {
    if s != "" {
      NotBeforeItself(s[1..]);
    }
  }

  ghost predicate OrderedBelow(bound: nat) {
    forall a: nat, i: nat, b: nat, j: nat | a < bound && b < bound && i < U64 && j < U64 ::
      Before(FileName(a, i), FileName(b, j)) <==> Earlier(a, i, b, j)
  }

  // File-name order is arrival order up to 10^20 nanoseconds since the epoch (the
  // year 5138), and no longer.
  lemma OrderedExactlyBelow(bound: nat)
    ensures OrderedBelow(bound) <==> bound <= LIMIT
  {
    if bound <= LIMIT {
      forall a: nat, i: nat, b: nat, j: nat | a < bound && b < bound && i < U64 && j < U64
        ensures Before(FileName(a, i), FileName(b, j)) <==> Earlier(a, i, b, j)
      {
        NameOrder(a, i, b, j);
      }
    } else {
      Limits();
      LeadingDigit(LIMIT, 1, 20, 20);
      LeadingDigit(20_000_000_000_000_000_000, 2, 19, 20);
      assert Before(FileName(LIMIT, 0), FileName(20_000_000_000_000_000_000, 0));
      assert !Earlier(LIMIT, 0, 20_000_000_000_000_000_000, 0);
    }
  }
}
