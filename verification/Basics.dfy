// Types shared by every part of the model.
module Basics {
  datatype Option<+T> = None | Some(value: T)

  // The database clock, in whole time units.
  type Time = int

  // Identifiers are compared for equality only, so UUIDs are numbers here.
  type RunId = nat
  type JobId = nat
  type WorkerId = string

  // What became of a database call: it took effect and the caller knows, it took
  // effect and the caller saw an error, or it did not take effect.
  datatype Call = Replied | ReplyLost | NotReached

  // What a job logs.
  datatype Message = Message(level: string, line: string)

  // Decimal rendering, as fmt's %d and Postgres' format('%s', n) produce it.
  function Digits(n: nat): (s: string)
    ensures |s| > 0
    ensures forall i | 0 <= i < |s| :: '0' <= s[i] <= '9'
  {
    var d := [('0' as int + n % 10) as char];
    if n < 10 then d else Digits(n / 10) + d
  }

  // What a run of decimal digits stands for, read from left to right.
  function Value(s: string): nat
    requires forall i | 0 <= i < |s| :: '0' <= s[i] <= '9'
  {
    if s == "" then 0 else 10 * Value(s[..|s| - 1]) + (s[|s| - 1] as int - '0' as int)
  }

  // n as it is usually written.
  predicate IsNumeral(s: string, n: nat) {
    && s != "" && (forall i | 0 <= i < |s| :: '0' <= s[i] <= '9')
    && (s[0] == '0' ==> |s| == 1)
    && Value(s) == n
  }

  lemma {:induction false} DigitsAreNumeral(n: nat)
    ensures IsNumeral(Digits(n), n) && (n > 0 ==> Digits(n)[0] != '0')
  {
    var d := [('0' as int + n % 10) as char];
    if n < 10 {
      assert d[..0] == "";
    } else {
      DigitsAreNumeral(n / 10);
      assert (Digits(n / 10) + d)[..|Digits(n / 10)|] == Digits(n / 10);
    }
  }

  // A number is written in one way only.
  lemma {:induction false} NumeralIsDigits(s: string, n: nat)
    requires IsNumeral(s, n)
    ensures s == Digits(n)
    decreases |s|
  {
    var init := s[..|s| - 1];
    assert s == init + [s[|s| - 1]];
    if init == "" {
      assert Value(init) == 0;
    } else {
      assert init[0] == s[0] && init[0] != '0';
      NumeralIsDigits(init, Value(init));
      LeadingDigit(init);
    }
  }

  lemma {:induction false} LeadingDigit(s: string)
    requires s != "" && (forall i | 0 <= i < |s| :: '0' <= s[i] <= '9') && s[0] != '0'
    ensures Value(s) > 0
  {
    var init := s[..|s| - 1];
    if init != "" {
      assert init[0] == s[0];
      LeadingDigit(init);
    }
  }

  predicate NoDup<T(==)>(s: seq<T>) {
    forall i, j | 0 <= i < j < |s| :: s[i] != s[j]
  }

  function Elems<T>(s: seq<T>): set<T> {
    set x | x in s
  }

  lemma {:induction false} NoDupSize<T>(s: seq<T>)
    requires NoDup(s)
    ensures |Elems(s)| == |s|
  {
    if s != [] {
      var p := s[..|s| - 1];
      NoDupSize(p);
      assert s == p + [s[|s| - 1]];
      assert Elems(s) == Elems(p) + {s[|s| - 1]};
    }
  }

  lemma {:induction false} SubsetSize<T>(a: set<T>, b: set<T>)
    requires a <= b
    ensures |a| <= |b| && (|a| == |b| <==> a == b)
    decreases a
  {
    if a != {} {
      var x :| x in a;
      SubsetSize(a - {x}, b - {x});
    }
  }

  lemma Regroup<T>(a: seq<T>, b: seq<T>, c: seq<T>)
    ensures a + b + c == a + (b + c)
  {
  }
}
