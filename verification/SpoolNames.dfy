/**
 * The names of spooled page files, and the order sorting them gives.  A directory of a
 * multi-page run sorts into document order because the numbers are padded; the proof says
 * how far that goes.
 */
module SpoolNames {
  import opened Text

  /** The spool prefix of a pass: fronts or simplex, backs, or a numbered multi-page pass. */
  datatype Label = PassA | PassB | Numbered(number: nat)

  /** A name in the spool; a partial one is the `.part` file of a page being written. */
  datatype Entry = Entry(pass: Label, sequence: nat, partial: bool)

  function Prefix(pass: Label): string {
    match pass
    case PassA => "a"
    case PassB => "b"
    case Numbered(number) => "a-" + Padded(number, 5)
  }

  function Name(e: Entry): string {
    Prefix(e.pass) + "-" + Padded(e.sequence, 4) + (if e.partial then ".png.part" else ".png")
  }

  /** The order file names are sorted in: character by character, a prefix first. */
  predicate Before(a: string, b: string) {
    b != [] && (a == [] || a[0] < b[0] || (a[0] == b[0] && Before(a[1..], b[1..])))
  }

  lemma {:induction false} BeforeIsTotal(a: string, b: string)
    ensures a == b || Before(a, b) || Before(b, a)
  {
    if a != [] && b != [] && a[0] == b[0] {
      BeforeIsTotal(a[1..], b[1..]);
      assert a == [a[0]] + a[1..] && b == [b[0]] + b[1..];
    }
  }

  lemma {:induction false} BeforeIsTransitive(a: string, b: string, c: string)
    requires Before(a, b) && Before(b, c)
    ensures Before(a, c)
  {
    if a != [] && a[0] == b[0] == c[0] {
      BeforeIsTransitive(a[1..], b[1..], c[1..]);
    }
  }

  lemma {:induction false} BeforeIsStrict(a: string, b: string)
    ensures !(Before(a, b) && Before(b, a))
  {
    if a != [] && b != [] && a[0] == b[0] {
      BeforeIsStrict(a[1..], b[1..]);
    }
  }

  lemma {:induction false} CommonPrefix(p: string, a: string, b: string)
    ensures Before(p + a, p + b) == Before(a, b)
  {
    if p == [] {
      assert p + a == a && p + b == b;
    } else {
      CommonPrefix(p[1..], a, b);
      assert (p + a)[1..] == p[1..] + a && (p + b)[1..] == p[1..] + b;
    }
  }

  /** `n` without its last digits. */
  function Cut(n: nat, digits: nat): nat {
    if digits == 0 then n else Cut(n / 10, digits - 1)
  }

  /** The first number, padded, is at most the second one cut to as many digits. */
  predicate KeepsOrder(n: nat, m: nat, width: nat) {
    var digits, more := |Padded(n, width)|, |Padded(m, width)|;
    digits <= more && n <= Cut(m, more - digits)
  }

  function Less(width: nat, digits: nat): nat {
    if digits <= width then width - digits else 0
  }

  lemma {:induction false} PaddedGrows(n: nat, m: nat, width: nat)
    requires n <= m
    ensures |Padded(n, width)| <= |Padded(m, width)|
  {
    if !(n < 10 && width <= 1) {
      PaddedGrows(n / 10, m / 10, Less(width, 1));
    }
  }

  lemma {:induction false} PaddedCuts(n: nat, width: nat, digits: nat)
    requires digits < |Padded(n, width)|
    ensures Padded(n, width)[..|Padded(n, width)| - digits] == Padded(Cut(n, digits), Less(width, digits))
  {
    if digits > 0 {
      PaddedCuts(n / 10, Less(width, 1), digits - 1);
    }
  }

  lemma {:induction false} SameDigits(n: nat, v: nat, w: nat)
    requires |Padded(n, v)| == |Padded(n, w)|
    ensures Padded(n, v) == Padded(n, w)
  {
    if |Padded(n, v)| > 1 {
      SameDigits(n / 10, Less(v, 1), Less(w, 1));
    }
  }

  /** With as many digits, the smaller number comes first, whatever follows. */
  lemma {:induction false} SameLengthOrder(n: nat, v: nat, m: nat, w: nat, x: string, y: string)
    requires n < m && |Padded(n, v)| == |Padded(m, w)|
    ensures Before(Padded(n, v) + x, Padded(m, w) + y)
  {
    if |Padded(n, v)| == 1 {
      assert Padded(n, v) == [Digit(n % 10)] && Padded(m, w) == [Digit(m % 10)];
    } else {
      var tn, tm := [Digit(n % 10)] + x, [Digit(m % 10)] + y;
      var restN, restM := Padded(n / 10, Less(v, 1)), Padded(m / 10, Less(w, 1));
      assert Padded(n, v) + x == restN + tn && Padded(m, w) + y == restM + tm;
      if n / 10 < m / 10 {
        SameLengthOrder(n / 10, Less(v, 1), m / 10, Less(w, 1), tn, tm);
      } else {
        SameDigits(n / 10, Less(v, 1), Less(w, 1));
        CommonPrefix(restN, tn, tm);
      }
    }
  }

  /** What follows a number in a name sorts before any digit. */
  predicate EndsNumber(s: string) {
    s != [] && s[0] < '0'
  }

  /** A number that is at an end sorts against as many digits of a longer one as the two numbers do. */
  lemma CutOrder(n: nat, v: nat, m: nat, w: nat, x: string, rest: string)
    requires |Padded(n, v)| == |Padded(m, w)| && EndsNumber(x) && rest != [] && '0' <= rest[0]
    ensures Before(Padded(n, v) + x, Padded(m, w) + rest) <==> n <= m
    ensures Before(Padded(m, w) + rest, Padded(n, v) + x) <==> m < n
  {
    if n < m {
      SameLengthOrder(n, v, m, w, x, rest);
    } else if m < n {
      SameLengthOrder(m, w, n, v, rest, x);
    } else {
      SameDigits(n, v, w);
      CommonPrefix(Padded(n, v), x, rest);
    }
    BeforeIsStrict(Padded(n, v) + x, Padded(m, w) + rest);
  }

  /** The longer number begins with as many digits as the shorter one has, and more digits follow. */
  lemma LongerSplits(m: nat, width: nat, digits: nat, y: string) returns (rest: string)
    requires 0 < digits < |Padded(m, width)|
    ensures Padded(m, width) + y == Padded(Cut(m, digits), Less(width, digits)) + rest
    ensures |Padded(Cut(m, digits), Less(width, digits))| == |Padded(m, width)| - digits
    ensures rest != [] && '0' <= rest[0]
  {
    var b := Padded(m, width);
    var first := |b| - digits;
    assert IsDigit(b[first]) by {
      PaddedReadsBack(m, width);
    }
    PaddedCuts(m, width, digits);
    rest := b[first..] + y;
    assert b + y == b[..first] + rest;
  }

  /** Padded numbers sort as numbers do exactly when `KeepsOrder` says so. */
  lemma PaddedOrder(n: nat, m: nat, width: nat, x: string, y: string)
    requires n < m && EndsNumber(x) && EndsNumber(y)
    ensures Before(Padded(n, width) + x, Padded(m, width) + y) <==> KeepsOrder(n, m, width)
    ensures Before(Padded(m, width) + y, Padded(n, width) + x) <==> !KeepsOrder(n, m, width)
  {
    PaddedGrows(n, m, width);
    var digits := |Padded(m, width)| - |Padded(n, width)|;
    if digits == 0 {
      SameLengthOrder(n, width, m, width, x, y);
      BeforeIsStrict(Padded(n, width) + x, Padded(m, width) + y);
      assert Cut(m, 0) == m;
    } else {
      PaddedReadsBack(n, width);
      var rest := LongerSplits(m, width, digits, y);
      CutOrder(n, width, Cut(m, digits), Less(width, digits), x, rest);
    }
  }

  function Pow10(width: nat): nat {
    if width == 0 then 1 else 10 * Pow10(width - 1)
  }

  lemma {:induction false} PaddedLength(n: nat, width: nat)
    requires 0 < width && n < Pow10(width)
    ensures |Padded(n, width)| == width
  {
    if width > 1 {
      PaddedLength(n / 10, width - 1);
    }
  }

  /** The number of a pass and then of a page: the order pages join a multi-page document. */
  predicate Earlier(a: Entry, b: Entry) {
    && a.pass.Numbered?
    && b.pass.Numbered?
    && (a.pass.number < b.pass.number || (a.pass.number == b.pass.number && a.sequence < b.sequence))
  }

  /**
   * The names of two page files sort as their numbers do: that of the earlier pass, or of the
   * earlier page of one pass, is at most the other one cut to as many digits.
   */
  predicate NamesKeepOrder(a: Entry, b: Entry)
    requires a.pass.Numbered? && b.pass.Numbered?
  {
    if a.pass != b.pass then KeepsOrder(a.pass.number, b.pass.number, 5) else KeepsOrder(a.sequence, b.sequence, 4)
  }

  /** The part of a name that comes after its page's number. */
  function Suffix(e: Entry): string {
    if e.partial then ".png.part" else ".png"
  }

  /** The part of a name that comes after its pass. */
  function Tail(e: Entry): string {
    "-" + (Padded(e.sequence, 4) + Suffix(e))
  }

  lemma NameParts(e: Entry)
    requires e.pass.Numbered?
    ensures Name(e) == "a-" + (Padded(e.pass.number, 5) + Tail(e))
  {
    assert Name(e) == "a-" + Padded(e.pass.number, 5) + "-" + Padded(e.sequence, 4) + Suffix(e);
  }

  /** Sorting by name puts the earlier of two files first exactly when their names keep the order. */
  lemma NameOrder(a: Entry, b: Entry)
    requires Earlier(a, b)
    ensures Before(Name(a), Name(b)) <==> NamesKeepOrder(a, b)
    ensures Before(Name(b), Name(a)) <==> !NamesKeepOrder(a, b)
  {
    NameParts(a);
    NameParts(b);
    var numberA, numberB := Padded(a.pass.number, 5), Padded(b.pass.number, 5);
    CommonPrefix("a-", numberA + Tail(a), numberB + Tail(b));
    CommonPrefix("a-", numberB + Tail(b), numberA + Tail(a));
    if a.pass != b.pass {
      PaddedOrder(a.pass.number, b.pass.number, 5, Tail(a), Tail(b));
    } else {
      CommonPrefix(numberA, Tail(a), Tail(b));
      CommonPrefix(numberA, Tail(b), Tail(a));
      var pageA, pageB := Padded(a.sequence, 4) + Suffix(a), Padded(b.sequence, 4) + Suffix(b);
      CommonPrefix("-", pageA, pageB);
      CommonPrefix("-", pageB, pageA);
      PaddedOrder(a.sequence, b.sequence, 4, Suffix(a), Suffix(b));
    }
  }

  /** A page file of a multi-page pass whose numbers are no longer than their padding. */
  predicate Fits(e: Entry) {
    e.pass.Numbered? && e.pass.number <= 99999 && e.sequence <= 9999
  }

  /** While the numbers fit their padding, names keep the order. */
  lemma FittingKeepsOrder(a: Entry, b: Entry)
    requires Fits(a) && Fits(b) && Earlier(a, b)
    ensures NamesKeepOrder(a, b)
  {
    assert Pow10(5) == 100000 && Pow10(4) == 10000;
    PaddedLength(a.pass.number, 5);
    PaddedLength(b.pass.number, 5);
    PaddedLength(a.sequence, 4);
    PaddedLength(b.sequence, 4);
  }

  lemma NinesLead()
    ensures Padded(99999, 5) == "99999"
  {
    assert Padded(9, 1) == "9";
    assert Padded(99, 2) == "99";
    assert Padded(999, 3) == "999";
    assert Padded(9999, 4) == "9999";
  }

  lemma OneLeads()
    ensures Padded(100000, 5) == "100000"
  {
    assert Padded(1, 0) == "1";
    assert Padded(10, 0) == "10";
    assert Padded(100, 1) == "100";
    assert Padded(1000, 2) == "1000";
    assert Padded(10000, 3) == "10000";
    assert Padded(100000, 4) == "100000";
  }

  /** Past the padding the order breaks: pass 100000 sorts before pass 99999, and pass 100001 after it again. */
  lemma NameOrderPastPadding()
    ensures !KeepsOrder(99999, 100000, 5) && KeepsOrder(100000, 100001, 5)
    ensures
      var earlier, later := Entry(Numbered(99999), 1, false), Entry(Numbered(100000), 1, false);
      Earlier(earlier, later) && Before(Name(later), Name(earlier))
  {
    NinesLead();
    OneLeads();
    PaddedGrows(100000, 100001, 5);
    NameOrder(Entry(Numbered(99999), 1, false), Entry(Numbered(100000), 1, false));
  }

  /** `a` sorts before `b`, or they have one name. */
  predicate NotAfter(a: Entry, b: Entry) {
    !Before(Name(b), Name(a))
  }

  lemma NotAfterIsTransitive(a: Entry, b: Entry, c: Entry)
    requires NotAfter(a, b) && NotAfter(b, c)
    ensures NotAfter(a, c)
  {
    var x, y, z := Name(a), Name(b), Name(c);
    if Before(z, x) {
      BeforeIsTotal(x, y);
      BeforeIsTotal(y, z);
      if x != y && y != z {
        BeforeIsTransitive(x, y, z);
        BeforeIsStrict(x, z);
      }
    }
  }

  lemma NotAfterIsTotal(a: Entry, b: Entry)
    ensures NotAfter(a, b) || NotAfter(b, a)
  {
    BeforeIsStrict(Name(a), Name(b));
  }

  predicate SortedByName(entries: seq<Entry>) {
    forall i, j :: 0 <= i < j < |entries| ==> NotAfter(entries[i], entries[j])
  }

  /** Put one entry where sorting by name puts it. */
  function InsertByName(entries: seq<Entry>, e: Entry): seq<Entry> {
    if entries == [] || NotAfter(e, entries[0]) then [e] + entries
    else [entries[0]] + InsertByName(entries[1..], e)
  }

  lemma {:induction false} InsertHolds(entries: seq<Entry>, e: Entry)
    ensures multiset(InsertByName(entries, e)) == multiset(entries) + multiset{e}
  {
    if entries != [] && !NotAfter(e, entries[0]) {
      InsertHolds(entries[1..], e);
      assert entries == [entries[0]] + entries[1..];
    }
  }

  lemma {:induction false} InsertSorts(entries: seq<Entry>, e: Entry)
    requires SortedByName(entries)
    ensures SortedByName(InsertByName(entries, e))
  {
    if entries == [] {
    } else if NotAfter(e, entries[0]) {
      forall j | 0 <= j < |entries| ensures NotAfter(e, entries[j]) {
        if j > 0 {
          NotAfterIsTransitive(e, entries[0], entries[j]);
        }
      }
    } else {
      var rest := InsertByName(entries[1..], e);
      InsertSorts(entries[1..], e);
      NotAfterIsTotal(e, entries[0]);
      forall j | 0 <= j < |rest| ensures NotAfter(entries[0], rest[j]) {
        InsertHolds(entries[1..], e);
        assert rest[j] in multiset(rest);
        assert rest[j] == e || rest[j] in entries[1..];
      }
    }
  }

  /** The files of a multi-page document, each after the one before it. */
  ghost predicate InDocumentOrder(document: seq<Entry>) {
    && (forall e | e in document :: e.pass.Numbered?)
    && (forall i, j :: 0 <= i < j < |document| ==> Earlier(document[i], document[j]))
  }

  /** The names of every two of them keep the order. */
  ghost predicate AllKeepOrder(document: seq<Entry>)
    requires InDocumentOrder(document)
  {
    forall i, j :: 0 <= i < j < |document| ==> NamesKeepOrder(document[i], document[j])
  }

  lemma FirstIsFirst(listing: seq<Entry>, document: seq<Entry>)
    requires SortedByName(listing) && InDocumentOrder(document) && document != [] && AllKeepOrder(document)
    requires multiset(listing) == multiset(document)
    ensures listing != [] && listing[0] == document[0]
  {
    var first := document[0];
    assert first in multiset(listing);
    var k :| 0 <= k < |listing| && listing[k] == first;
    assert listing[0] in multiset(document);
    var d :| 0 <= d < |document| && document[d] == listing[0];
    if d > 0 {
      NameOrder(first, listing[0]);
    }
  }

  lemma RestMatches(listing: seq<Entry>, document: seq<Entry>)
    requires listing != [] && document != [] && listing[0] == document[0]
    requires multiset(listing) == multiset(document)
    ensures multiset(listing[1..]) == multiset(document[1..])
  {
    var rest, tail := listing[1..], document[1..];
    assert listing == [document[0]] + rest && document == [document[0]] + tail;
    assert multiset(rest) == multiset(listing) - multiset{document[0]};
    assert multiset(tail) == multiset(document) - multiset{document[0]};
  }

  lemma {:induction false} SortsToDocument(listing: seq<Entry>, document: seq<Entry>)
    requires SortedByName(listing) && InDocumentOrder(document) && AllKeepOrder(document)
    requires multiset(listing) == multiset(document)
    ensures listing == document
  {
    if document == [] {
      assert |multiset(listing)| == 0;
    } else {
      FirstIsFirst(listing, document);
      RestMatches(listing, document);
      SortsToDocument(listing[1..], document[1..]);
      assert listing == [listing[0]] + listing[1..] && document == [document[0]] + document[1..];
    }
  }

  /**
   * A spool that holds exactly the files of a document, read back sorted by name, is the
   * document in order exactly when the names of every two of its files keep the order: what a
   * sweep of a killed run rebuilds it from.
   */
  lemma SortedSpoolIsDocument(listing: seq<Entry>, document: seq<Entry>)
    requires SortedByName(listing) && InDocumentOrder(document)
    requires multiset(listing) == multiset(document)
    ensures listing == document <==> AllKeepOrder(document)
  {
    if AllKeepOrder(document) {
      SortsToDocument(listing, document);
    } else if listing == document {
      forall i, j | 0 <= i < j < |document| ensures NamesKeepOrder(document[i], document[j]) {
        NameOrder(document[i], document[j]);
      }
    }
  }

  lemma FittingSorts(document: seq<Entry>)
    requires InDocumentOrder(document) && forall e | e in document :: Fits(e)
    ensures AllKeepOrder(document)
  {
    forall i, j | 0 <= i < j < |document| ensures NamesKeepOrder(document[i], document[j]) {
      FittingKeepsOrder(document[i], document[j]);
    }
  }

  /** No name is listed twice. */
  ghost predicate EachOnce(listing: seq<Entry>) {
    forall i, j :: 0 <= i < j < |listing| ==> listing[i] != listing[j]
  }

  lemma {:induction false} CountedOnce(listing: seq<Entry>)
    requires forall e :: multiset(listing)[e] <= 1
    ensures EachOnce(listing)
  {
    if listing != [] {
      var first, rest := listing[0], listing[1..];
      assert listing == [first] + rest;
      forall e ensures multiset(rest)[e] <= 1 && (e == first ==> e !in multiset(rest)) {
        assert multiset(listing)[e] == multiset{first}[e] + multiset(rest)[e];
      }
      CountedOnce(rest);
      forall j | 0 < j < |listing| ensures listing[j] != first {
        assert listing[j] == rest[j - 1] && rest[j - 1] in multiset(rest);
      }
    }
  }

  lemma {:induction false} CountOfOnce(listing: seq<Entry>, e: Entry)
    requires EachOnce(listing)
    ensures multiset(listing)[e] == if e in listing then 1 else 0
  {
    if listing != [] {
      var first, rest := listing[0], listing[1..];
      assert listing == [first] + rest;
      CountOfOnce(rest, e);
      forall j | 0 <= j < |rest| ensures rest[j] != first {
        assert listing[j + 1] == rest[j];
      }
    }
  }

  /** Each file once on both sides, and the same files: the same listing up to order. */
  lemma SameFiles(a: seq<Entry>, b: seq<Entry>)
    requires EachOnce(a) && EachOnce(b) && forall e :: e in a <==> e in b
    ensures multiset(a) == multiset(b)
  {
    forall e ensures multiset(a)[e] == multiset(b)[e] {
      CountOfOnce(a, e);
      CountOfOnce(b, e);
    }
  }
}
