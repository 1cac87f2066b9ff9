/** The configuration reader: splitting a list at a separator and reading decimal numbers. */
module ConfigSplit {
  import opened DmTypes
  import opened Machine

  // ---------- Splitting ----------

  predicate At(s: string, p: string, i: nat) {
    i + |p| <= |s| && s[i..i + |p|] == p
  }

  /** std::string::find: the first occurrence that starts at or after an index. */
  function Find(s: string, p: string, from: nat): (r: Option<nat>)
    requires from <= |s|
    ensures r.Some? ==> from <= r.value && At(s, p, r.value) && forall i :: from <= i < r.value ==> !At(s, p, i)
    ensures r.None? ==> forall i :: from <= i ==> !At(s, p, i)
    decreases |s| - from
  {
    if At(s, p, from) then Some(from)
    else if from == |s| then None
    else Find(s, p, from + 1)
  }

  /** What lies before each occurrence, reading from the left; what follows the last one is dropped. */
  function Pieces(s: string, p: string): seq<string>
    requires p != ""
    decreases |s|
  {
    match Find(s, p, 0)
    case None => []
    case Some(k) => [s[..k]] + Pieces(s[k + |p|..], p)
  }

  /** The index after one turn of the loop, the increment included. */
  function Advance(s: string, p: string, i: nat): int
    requires i < |s|
  {
    match Find(s, p, i)
    case Some(k) => if k < |s| then (k + |p| - 1) + 1 else i + 1
    case None => i + 1
  }

  /** The loop makes progress at every index exactly for a non-empty pattern; with an empty one it stays
      where it is for ever (unless the input is empty, when it is never entered). */
  lemma AdvancesIffNonEmpty(s: string, p: string, i: nat)
    requires i < |s|
    ensures Advance(s, p, i) > i <==> p != ""
    ensures p == "" ==> Advance(s, p, i) == i
  {
    if p == "" {
      assert s[i..i + 0] == p;
      assert At(s, p, i);
    }
  }

  lemma {:induction false} FindIs(s: string, p: string, from: nat, k: nat)
    requires from <= k && At(s, p, k) && forall i: nat :: from <= i < k ==> !At(s, p, i)
    ensures Find(s, p, from) == Some(k)
    decreases k - from
  {
    if from < k {
      FindIs(s, p, from + 1, k);
    }
  }

  lemma AtShift(s: string, p: string, i: nat, j: nat)
    requires i <= |s|
    ensures At(s[i..], p, j) == At(s, p, i + j)
  {
    if i + j + |p| <= |s| { assert s[i..][j..j + |p|] == s[i + j..i + j + |p|]; }
  }

  lemma FindShift(s: string, p: string, i: nat)
    requires i <= |s|
    ensures Find(s[i..], p, 0) == match Find(s, p, i) case None => None case Some(k) => Some(k - i)
  {
    forall j: nat ensures At(s[i..], p, j) == At(s, p, i + j) {
      AtShift(s, p, i, j);
    }
    hide At;
    var q, r := Find(s, p, i), Find(s[i..], p, 0);
    if q.Some? {
      assert At(s[i..], p, q.value - i);
      FindIs(s[i..], p, 0, q.value - i);
    }
    assert r.Some? ==> At(s, p, i + r.value);
  }

  lemma SliceFrom(s: string, i: nat, k: nat)
    requires i <= k <= |s|
    ensures s[i..][..k - i] == s[i..k]
  {
  }

  lemma DropFrom(s: string, i: nat, k: nat)
    requires i <= k <= |s|
    ensures s[i..][k - i..] == s[k..]
  {
  }

  lemma Unfold(s: string, p: string)
    requires p != ""
    ensures match Find(s, p, 0)
            case None => Pieces(s, p) == []
            case Some(k) => k + |p| <= |s| && Pieces(s, p) == [s[..k]] + Pieces(s[k + |p|..], p)
  {
    hide Find;
  }

  /** The pieces of a suffix, by a search in the whole text. */
  lemma PiecesFrom(s: string, p: string, i: nat)
    requires p != "" && i <= |s|
    ensures match Find(s, p, i)
            case None => Pieces(s[i..], p) == []
            case Some(k) => k + |p| <= |s| && Pieces(s[i..], p) == [s[i..k]] + Pieces(s[k + |p|..], p)
  {
    hide *;
    FindShift(s, p, i);
    Unfold(s[i..], p);
    if Find(s, p, i).Some? {
      var k := Find(s, p, i).value;
      SliceFrom(s, i, k);
      DropFrom(s, i, k + |p|);
    }
  }

  method Split(str: string, pattern: string) returns (result: seq<string>)
    requires pattern != ""
    ensures result == Pieces(str + pattern, pattern)
  {
    hide Pieces, At;
    result := [];
    var s := str + pattern;
    var length := |s|;
    var i := 0;
    assert s[0..] == s;
    while i < length
      invariant 0 <= i <= length
      invariant result + Pieces(s[i..], pattern) == Pieces(s, pattern)
      decreases length - i
    {
      PiecesFrom(s, pattern, i);
      var position := Find(s, pattern, i);
      if position.Some? && position.value < length {
        var k := position.value;
        assert result + ([s[i..k]] + Pieces(s[k + |pattern|..], pattern))
            == (result + [s[i..k]]) + Pieces(s[k + |pattern|..], pattern);
        result := result + [s[i..k]];
        i := k + |pattern| - 1;
      } else {
        PiecesFrom(s, pattern, i + 1);
      }
      i := i + 1;
    }
    PiecesFrom(s, pattern, length);
  }

  function Join(ps: seq<string>, p: string): string {
    if ps == [] then ""
    else if |ps| == 1 then ps[0]
    else ps[0] + p + Join(ps[1..], p)
  }

  /** No proper prefix of the pattern is also a suffix of it. */
  ghost predicate Unbordered(p: string) {
    forall m :: 0 < m < |p| ==> p[..m] != p[|p| - m..]
  }

  predicate EndsWith(s: string, p: string) {
    |p| <= |s| && s[|s| - |p|..] == p
  }

  lemma EndFound(s: string, p: string)
    requires p != "" && EndsWith(s, p)
    ensures Find(s, p, 0).Some? && Pieces(s, p) != []
  {
    assert At(s, p, |s| - |p|);
  }

  lemma OverlapIsBorder(s: string, p: string, k: nat, e: nat)
    requires At(s, p, k) && At(s, p, e) && k < e < k + |p|
    ensures !Unbordered(p)
  {
    var m := k + |p| - e;
    assert p[..m] == s[e..e + |p|][..m] == s[e..e + m];
    assert p[|p| - m..] == s[k..k + |p|][|p| - m..] == s[e..e + m];
  }

  /** In a text that ends with an unbordered pattern, the first occurrence is the last one or ends
      before the last one begins. */
  lemma NoOverlap(s: string, p: string, k: nat)
    requires p != "" && Unbordered(p) && EndsWith(s, p) && At(s, p, k)
    ensures k == |s| - |p| || k + |p| <= |s| - |p|
  {
    var e := |s| - |p|;
    if k < e < k + |p| {
      OverlapIsBorder(s, p, k, e);
    }
  }

  lemma {:induction false} JoinPieces(s: string, p: string)
    requires p != "" && Unbordered(p) && EndsWith(s, p)
    ensures Join(Pieces(s, p), p) + p == s
    decreases |s|
  {
    EndFound(s, p);
    var k := Find(s, p, 0).value;
    NoOverlap(s, p, k);
    assert s[k..k + |p|] == p;
    Unfold(s, p);
    hide At, Unbordered, Find, Pieces;
    var rest := s[k + |p|..];
    assert s == s[..k] + p + rest;
    if k == |s| - |p| {
      ShortHasNoPieces(rest, p);
    } else {
      assert rest[|rest| - |p|..] == s[|s| - |p|..] == p;
      JoinPieces(rest, p);
      EndFound(rest, p);
      JoinCons(s[..k], Pieces(rest, p), p);
    }
  }

  lemma ShortHasNoPieces(s: string, p: string)
    requires |s| < |p|
    ensures Pieces(s, p) == []
  {
  }

  lemma JoinCons(x: string, ps: seq<string>, p: string)
    requires ps != []
    ensures Join([x] + ps, p) + p == x + p + (Join(ps, p) + p)
  {
    assert ([x] + ps)[1..] == ps;
  }

  /** A border of the pattern makes Split lose text. */
  lemma BorderLosesText(p: string, m: nat)
    requires 0 < m < |p| && p[..m] == p[|p| - m..]
    ensures var str := p[..|p| - m]; Join(Pieces(str + p, p), p) != str
  {
    var str := p[..|p| - m];
    var s := str + p;
    assert s[..|p|] == str + p[..m] == str + p[|p| - m..] == p;
    assert At(s, p, 0);
    var rest := s[|p|..];
    assert |rest| < |p|;
    assert Pieces(rest, p) == [];
    assert Pieces(s, p) == [s[..0]];
  }

  /** Joining the pieces gives back every input if and only if the pattern has no border. */
  lemma JoinRecovers(p: string)
    requires p != ""
    ensures (forall str: string :: Join(Pieces(str + p, p), p) == str) <==> Unbordered(p)
  {
    if Unbordered(p) {
      forall str: string ensures Join(Pieces(str + p, p), p) == str {
        var s := str + p;
        assert s[|s| - |p|..] == p;
        JoinPieces(s, p);
        var j := Join(Pieces(s, p), p);
        assert |j| == |str|;
        assert j == (j + p)[..|str|] == str;
      }
    } else {
      var m :| 0 < m < |p| && p[..m] == p[|p| - m..];
      BorderLosesText(p, m);
    }
  }

  /** No piece contains the pattern. */
  lemma {:induction false} PiecesClean(s: string, p: string)
    requires p != ""
    ensures forall j, i: nat :: 0 <= j < |Pieces(s, p)| ==> !At(Pieces(s, p)[j], p, i)
    decreases |s|
  {
    if Find(s, p, 0).Some? {
      var k := Find(s, p, 0).value;
      PiecesClean(s[k + |p|..], p);
      forall i: nat ensures !At(s[..k], p, i) {
        if i + |p| <= k { assert s[..k][i..i + |p|] == s[i..i + |p|]; assert !At(s, p, i); }
      }
    }
  }

  /** With a one-character separator, splitting undoes joining. */
  lemma {:induction false} SplitJoin(ps: seq<string>, c: char)
    requires ps != [] && forall j :: 0 <= j < |ps| ==> c !in ps[j]
    ensures Pieces(Join(ps, [c]) + [c], [c]) == ps
  {
    var p := [c];
    var s := Join(ps, p) + p;
    var k := |ps[0]|;
    var tail := if |ps| == 1 then "" else Join(ps[1..], p) + p;
    assert s == ps[0] + p + tail;
    assert At(s, p, k) by { assert s[k..k + 1] == p; }
    forall i | 0 <= i < k ensures !At(s, p, i) {
      assert s[i] == ps[0][i] && ps[0][i] in ps[0];
      assert s[i..i + 1] == [s[i]];
    }
    FindIs(s, p, 0, k);
    assert s[..k] == ps[0] && s[k + 1..] == tail;
    if |ps| == 1 {
      assert Pieces(tail, p) == [];
    } else {
      SplitJoin(ps[1..], c);
    }
  }

  // ---------- Numbers ----------

  predicate IsDigit(c: char) {
    '0' <= c <= '9'
  }

  predicate AllDigits(s: string) {
    forall i :: 0 <= i < |s| ==> IsDigit(s[i])
  }

  /** The empty string passes. */
  method IsNumber(s: string) returns (r: bool)
    ensures r == AllDigits(s)
  {
    var i := 0;
    while i < |s|
      invariant 0 <= i <= |s| && AllDigits(s[..i])
    {
      if s[i] < '0' || s[i] > '9' {
        return false;
      }
      i := i + 1;
    }
    assert s[..i] == s;
    return true;
  }

  function ValueOf(s: string): nat
    requires AllDigits(s)
  {
    if s == "" then 0 else 10 * ValueOf(s[..|s| - 1]) + (s[|s| - 1] as int - '0' as int)
  }

  function Decimal(n: nat): (s: string)
    ensures s != "" && AllDigits(s)
  {
    var d := [('0' as int + n % 10) as char];
    if n < 10 then d else Decimal(n / 10) + d
  }

  lemma {:induction false} ValueOfDecimal(n: nat)
    ensures ValueOf(Decimal(n)) == n
  {
    var s := Decimal(n);
    if n < 10 {
      assert s[..|s| - 1] == "";
    } else {
      assert s[..|s| - 1] == Decimal(n / 10);
      ValueOfDecimal(n / 10);
    }
  }

  /** std::stoi on a string of digits: it throws for the empty string and past the largest int. */
  function Stoi(s: string): Option<int>
    requires AllDigits(s)
  {
    if s == "" || ValueOf(s) > INT32_MAX then None else Some(ValueOf(s))
  }

  /** Stored: the numbers are recorded. Skipped: the entry is left as it was. Thrown: an exception of
      the conversion escapes. */
  datatype Reading = Stored(numbers: seq<int>) | Skipped | Thrown

  function ReadAll(pieces: seq<string>): Reading {
    if pieces == [] then Stored([])
    else if !AllDigits(pieces[0]) then Skipped
    else if Stoi(pieces[0]).None? then Thrown
    else match ReadAll(pieces[1..])
      case Stored(ns) => Stored([Stoi(pieces[0]).value] + ns)
      case other => other
  }

  function Read(text: string): Reading {
    if text == "" then Skipped else ReadAll(Pieces(text + " ", " "))
  }

  class DisplayManagerConfig {
    var intNumbersConfig: map<string, seq<int>>

    constructor ()
      ensures intNumbersConfig == map[]
    {
      intNumbersConfig := map[];
    }

    /** The boolean tells that an exception escaped. */
    method ReadIntNumbersConfigInfo(nodeName: string, text: string) returns (thrown: bool)
      modifies this
      ensures thrown == Read(text).Thrown?
      ensures intNumbersConfig == match Read(text)
                                  case Stored(ns) => old(intNumbersConfig)[nodeName := ns]
                                  case _ => old(intNumbersConfig)
    {
      if text == "" {
        return false;
      }
      var numbersVec := [];
      var numbers := Split(text, " ");
      var i := 0;
      while i < |numbers|
        invariant 0 <= i <= |numbers|
        invariant intNumbersConfig == old(intNumbersConfig)
        invariant ReadAll(numbers) == match ReadAll(numbers[i..])
                                      case Stored(ns) => Stored(numbersVec + ns)
                                      case other => other
      {
        var num := numbers[i];
        assert numbers[i..][1..] == numbers[i + 1..];
        var ok := IsNumber(num);
        if !ok {
          return false;
        }
        var n := Stoi(num);
        if n.None? {
          return true;
        }
        numbersVec := numbersVec + [n.value];
        i := i + 1;
      }
      assert numbersVec + [] == numbersVec;
      intNumbersConfig := intNumbersConfig[nodeName := numbersVec];
      return false;
    }
  }

  predicate IsGood(piece: string) {
    piece != "" && AllDigits(piece) && ValueOf(piece) <= INT32_MAX
  }

  lemma {:induction false} ReadAllExact(pieces: seq<string>)
    ensures ReadAll(pieces).Stored? <==> forall i :: 0 <= i < |pieces| ==> IsGood(pieces[i])
    ensures ReadAll(pieces).Stored? ==>
              |ReadAll(pieces).numbers| == |pieces|
              && forall i :: 0 <= i < |pieces| ==> IsGood(pieces[i]) && ReadAll(pieces).numbers[i] == ValueOf(pieces[i])
    ensures ReadAll(pieces).Thrown? <==>
              exists i :: 0 <= i < |pieces| && AllDigits(pieces[i]) && !IsGood(pieces[i])
                          && forall j :: 0 <= j < i ==> IsGood(pieces[j])
  {
    if pieces != [] {
      ReadAllExact(pieces[1..]);
      var rest := pieces[1..];
      if IsGood(pieces[0]) {
        if ReadAll(rest).Thrown? {
          var i :| 0 <= i < |rest| && AllDigits(rest[i]) && !IsGood(rest[i]) && forall j :: 0 <= j < i ==> IsGood(rest[j]);
          assert pieces[i + 1] == rest[i];
          assert forall j :: 0 < j < i + 1 ==> pieces[j] == rest[j - 1];
        }
        if i :| 0 <= i < |pieces| && AllDigits(pieces[i]) && !IsGood(pieces[i]) && forall j :: 0 <= j < i ==> IsGood(pieces[j]) {
          assert rest[i - 1] == pieces[i];
          assert forall j :: 0 <= j < i - 1 ==> rest[j] == pieces[j + 1];
        }
      }
    }
  }

  /** Two separators in a row, or one at either end, make the reader throw (or skip, if a piece before
      is no number); they never make it store. */
  lemma EmptyPieceNeverStored(text: string, j: nat)
    requires text != "" && j < |Pieces(text + " ", " ")| && Pieces(text + " ", " ")[j] == ""
    ensures !Read(text).Stored?
  {
    ReadAllExact(Pieces(text + " ", " "));
    assert !IsGood(Pieces(text + " ", " ")[j]);
  }

  function Decimals(ns: seq<nat>): (r: seq<string>)
    ensures |r| == |ns| && forall i :: 0 <= i < |ns| ==> r[i] == Decimal(ns[i])
  {
    if ns == [] then [] else [Decimal(ns[0])] + Decimals(ns[1..])
  }

  lemma DecimalPiece(n: nat)
    ensures ' ' !in Decimal(n) && ValueOf(Decimal(n)) == n
    ensures IsGood(Decimal(n)) <==> n <= INT32_MAX
    ensures n <= INT32_MAX || (AllDigits(Decimal(n)) && !IsGood(Decimal(n)))
  {
    ValueOfDecimal(n);
    hide ValueOf, Decimal;
  }

  predicate Fit(ns: seq<nat>) {
    forall i :: 0 <= i < |ns| ==> ns[i] <= INT32_MAX
  }

  lemma {:induction false} DecimalsRead(ns: seq<nat>)
    ensures ReadAll(Decimals(ns)) == if Fit(ns) then Stored(ns) else Thrown
  {
    if ns != [] {
      DecimalPiece(ns[0]);
      DecimalsRead(ns[1..]);
      assert Fit(ns) <==> ns[0] <= INT32_MAX && Fit(ns[1..]) by {
        if Fit(ns[1..]) { assert forall i :: 0 < i < |ns| ==> ns[i] == ns[1..][i - 1]; }
      }
      hide Decimal, ValueOf, Fit;
      assert Decimals(ns) == [Decimal(ns[0])] + Decimals(ns[1..]);
      assert [ns[0]] + ns[1..] == ns;
    }
  }

  /** A list of numbers written in decimal and joined with spaces is read back as it was, if and only if
      every number fits an int; a number too large makes the reader throw. */
  lemma DecimalRoundTrip(ns: seq<nat>)
    requires ns != []
    ensures Read(Join(Decimals(ns), " ")) == if Fit(ns) then Stored(ns) else Thrown
  {
    var ps := Decimals(ns);
    forall i | 0 <= i < |ps| ensures ' ' !in ps[i] {
      DecimalPiece(ns[i]);
    }
    SplitJoin(ps, ' ');
    assert Join(ps, " ") != "" by { assert ps[0] != ""; }
    DecimalsRead(ns);
    hide Join, Pieces, Decimals, ReadAll;
  }
}
