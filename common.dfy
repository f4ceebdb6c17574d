/** Small shared vocabulary: optional values, results, Java exceptions, and the
    handful of string helpers (Java whitespace, ASCII case, decimal rendering)
    that the generators and parsers rely on. */
module Common {

  datatype Option<+T> = None | Some(value: T)

  datatype Result<+T, +E> = Ok(value: T) | Err(error: E)

  /** The Java exceptions that the modelled code lets escape. */
  datatype Failure =
    | NullPointer
    | IndexOutOfBounds
    | IllegalArgument(message: string)
    | Mapping(message: string)
    | NoHint(message: string)
    | UnsupportedOperation(message: string)
    | ClassCast

  /** The characters of the Java regular-expression class `\s`. */
  predicate IsJavaWhitespace(c: char)
  {
    c == ' ' || c == '\t' || c == '\n' || c == '\U{B}' || c == '\U{C}' || c == '\r'
  }

  predicate IsUpperAscii(c: char) { 'A' <= c <= 'Z' }

  predicate IsLowerAscii(c: char) { 'a' <= c <= 'z' }

  function LowerAscii(c: char): char
  {
    if IsUpperAscii(c) then (c as int + 32) as char else c
  }

  function UpperAscii(c: char): char
  {
    if IsLowerAscii(c) then (c as int - 32) as char else c
  }

  /** `String.toUpperCase`, restricted to ASCII letters. */
  function ToUpper(s: string): (r: string)
    ensures |r| == |s|
    ensures forall k :: 0 <= k < |s| ==> r[k] == UpperAscii(s[k])
  {
    if s == [] then [] else [UpperAscii(s[0])] + ToUpper(s[1..])
  }

  /** `String.toLowerCase`, restricted to ASCII letters. */
  function ToLower(s: string): (r: string)
    ensures |r| == |s|
    ensures forall k :: 0 <= k < |s| ==> r[k] == LowerAscii(s[k])
  {
    if s == [] then [] else [LowerAscii(s[0])] + ToLower(s[1..])
  }

  function DigitChar(d: nat): (c: char)
    requires d < 10
    ensures '0' <= c <= '9'
  {
    "0123456789"[d]
  }

  /** Decimal rendering of a natural number, as `String.valueOf` prints it. */
  function NatToString(n: nat): (r: string)
    ensures |r| >= 1
    ensures forall k :: 0 <= k < |r| ==> '0' <= r[k] <= '9'
    decreases n
  {
    if n < 10 then [DigitChar(n)] else NatToString(n / 10) + [DigitChar(n % 10)]
  }

  /** Decimal rendering of an integer (a Java `int` or `long`). */
  function IntToString(i: int): (r: string)
    ensures |r| >= 1
  {
    if i < 0 then "-" + NatToString(-i) else NatToString(i)
  }

  lemma DigitCharInjective(a: nat, b: nat)
    requires a < 10 && b < 10
    ensures DigitChar(a) == DigitChar(b) ==> a == b
  {
  }

  /** Distinct numbers print differently: this is what keeps the generated
      parameter names `p0`, `p1`, ... apart. */
  lemma {:induction false} NatToStringInjective(a: nat, b: nat)
    ensures NatToString(a) == NatToString(b) ==> a == b
    decreases a
  {
    if NatToString(a) == NatToString(b) {
      if a < 10 && b < 10 {
        DigitCharInjective(a, b);
      } else if a >= 10 && b >= 10 {
        var sa, sb := NatToString(a), NatToString(b);
        assert sa[|sa| - 1] == DigitChar(a % 10);
        assert sb[|sb| - 1] == DigitChar(b % 10);
        DigitCharInjective(a % 10, b % 10);
        assert sa[..|sa| - 1] == NatToString(a / 10);
        assert sb[..|sb| - 1] == NatToString(b / 10);
        NatToStringInjective(a / 10, b / 10);
      }
    }
  }

  /** Concatenation of a sequence of strings. */
  function Concat(parts: seq<string>): string
  {
    if parts == [] then "" else Concat(parts[..|parts| - 1]) + parts[|parts| - 1]
  }

  /** The parts separated by `sep`, with no leading or trailing separator. */
  function Join(parts: seq<string>, sep: string): string
  {
    if parts == [] then ""
    else if |parts| == 1 then parts[0]
    else Join(parts[..|parts| - 1], sep) + sep + parts[|parts| - 1]
  }

  /** `StringBuilder.deleteCharAt(length - 1)` guarded by "the last character is a comma". */
  function DropTrailingComma(s: string): (r: string)
    ensures s != [] && s[|s| - 1] == ',' ==> r + "," == s
    ensures s == [] || s[|s| - 1] != ',' ==> r == s
  {
    if s != [] && s[|s| - 1] == ',' then s[..|s| - 1] else s
  }

  /** Each part followed by a comma, with the final comma then removed, equals the
      comma-separated join when no part itself ends in a comma. */
  lemma {:induction false} CommaTerminatedIsJoin(parts: seq<string>)
    requires forall k :: 0 <= k < |parts| ==> parts[k] != [] && parts[k][|parts[k]| - 1] != ','
    ensures DropTrailingComma(Concat(CommaTerminated(parts))) == Join(parts, ",")
  {
    if parts == [] {
    } else {
      var init := parts[..|parts| - 1];
      var last := parts[|parts| - 1];
      assert CommaTerminated(parts)[..|parts| - 1] == CommaTerminated(init);
      assert Concat(CommaTerminated(parts)) == Concat(CommaTerminated(init)) + (last + ",");
      if |parts| == 1 {
        assert init == [];
        assert Concat(CommaTerminated(init)) == "";
      } else {
        CommaTerminatedIsJoin(init);
        var c := Concat(CommaTerminated(init));
        assert c != [] && c[|c| - 1] == ',' by {
          ConcatLastIsLastPart(CommaTerminated(init));
        }
        assert c == DropTrailingComma(c) + ",";
      }
    }
  }

  function CommaTerminated(parts: seq<string>): (r: seq<string>)
    ensures |r| == |parts|
    ensures forall k :: 0 <= k < |parts| ==> r[k] == parts[k] + ","
  {
    seq(|parts|, k requires 0 <= k < |parts| => parts[k] + ",")
  }

  lemma ConcatLastIsLastPart(parts: seq<string>)
    requires parts != [] && parts[|parts| - 1] != []
    ensures var c := Concat(parts); c != [] && c[|c| - 1] == parts[|parts| - 1][|parts[|parts| - 1]| - 1]
  {
  }

  lemma ConcatAppend(parts: seq<string>, last: string)
    ensures Concat(parts + [last]) == Concat(parts) + last
  {
    assert (parts + [last])[..|parts|] == parts;
  }

  lemma CommaTerminatedSnoc(parts: seq<string>, last: string)
    ensures Concat(CommaTerminated(parts + [last])) == Concat(CommaTerminated(parts)) + (last + ",")
  {
    assert CommaTerminated(parts + [last]) == CommaTerminated(parts) + [last + ","];
    ConcatAppend(CommaTerminated(parts), last + ",");
  }

  /** String concatenation regroups freely. */
  lemma AppendAssociative(a: string, b: string, c: string)
    ensures (a + b) + c == a + (b + c)
  {
  }

  /** The trailing comma of a text that starts with a prefix not ending in a
      comma is the trailing comma of what follows the prefix. */
  lemma DropTrailingCommaAfter(prefix: string, s: string)
    requires prefix != [] && prefix[|prefix| - 1] != ','
    ensures DropTrailingComma(prefix + s) == prefix + DropTrailingComma(s)
  {
    if s != [] && s[|s| - 1] == ',' {
      assert (prefix + s)[..|prefix + s| - 1] == prefix + s[..|s| - 1];
    }
  }


  // ---------------------------------------------------------------------------
  // String.split on a literal separator
  // ---------------------------------------------------------------------------

  /** sep occurs in s starting at j. */
  predicate OccursAt(s: string, sep: string, j: nat)
  {
    j + |sep| <= |s| && s[j..j + |sep|] == sep
  }

  /** The first occurrence of sep in s at or after i. */
  function FirstOccurrence(s: string, sep: string, i: nat): (r: Option<nat>)
    requires |sep| > 0 && i <= |s|
    ensures r.Some? ==> i <= r.value && OccursAt(s, sep, r.value)
    ensures r.Some? ==> forall j :: i <= j < r.value ==> !OccursAt(s, sep, j)
    ensures r.None? ==> forall j :: i <= j ==> !OccursAt(s, sep, j)
    decreases |s| - i
  {
    if OccursAt(s, sep, i) then Some(i)
    else if i == |s| then None
    else FirstOccurrence(s, sep, i + 1)
  }

  /** The pieces of s around the occurrences of sep, found left to right
      without overlap. */
  function Pieces(s: string, sep: string): (r: seq<string>)
    requires |sep| > 0
    ensures |r| >= 1
    decreases |s|
  {
    match FirstOccurrence(s, sep, 0)
    case None => [s]
    case Some(j) => [s[..j]] + Pieces(s[j + |sep|..], sep)
  }

  function DropTrailingEmpty(ps: seq<string>): (r: seq<string>)
    ensures r <= ps
    ensures r != [] ==> r[|r| - 1] != ""
    ensures forall k :: |r| <= k < |ps| ==> ps[k] == ""
  {
    if ps != [] && ps[|ps| - 1] == "" then DropTrailingEmpty(ps[..|ps| - 1]) else ps
  }

  /** `String.split(sep)` for a separator without regular-expression
      metacharacters: the input itself when sep does not occur in it,
      otherwise the pieces with the trailing empty ones removed. */
  function Split(s: string, sep: string): (r: seq<string>)
    requires |sep| > 0
  {
    var ps := Pieces(s, sep);
    if |ps| == 1 then ps else DropTrailingEmpty(ps)
  }

  /** The leading piece of a string that holds the separator character only
      after a first, separator-free part. */
  lemma PiecesAfterFirst(a: string, c: char, b: string)
    requires c !in a
    ensures Pieces(a + [c] + b, [c]) == [a] + Pieces(b, [c])
  {
    var s := a + [c] + b;
    assert OccursAt(s, [c], |a|);
    forall j: nat | j < |a|
      ensures !OccursAt(s, [c], j)
    {
      assert s[j] == a[j];
    }
    assert s[..|a|] == a;
    assert s[|a| + 1..] == b;
  }

  lemma {:induction false} JoinCons(parts: seq<string>, sep: string)
    requires |parts| >= 2
    ensures Join(parts, sep) == parts[0] + sep + Join(parts[1..], sep)
    decreases |parts|
  {
    var init := parts[..|parts| - 1];
    assert parts[1..][..|parts[1..]| - 1] == init[1..];
    if |parts| > 2 {
      JoinCons(init, sep);
    }
  }

  /** Splitting the join of separator-free parts gives the parts back. */
  lemma {:induction false} PiecesOfJoin(parts: seq<string>, c: char)
    requires parts != []
    requires forall k :: 0 <= k < |parts| ==> c !in parts[k]
    ensures Pieces(Join(parts, [c]), [c]) == parts
    decreases |parts|
  {
    if |parts| == 1 {
      assert Join(parts, [c]) == parts[0];
    } else {
      JoinCons(parts, [c]);
      PiecesOfJoin(parts[1..], c);
      PiecesAfterFirst(parts[0], c, Join(parts[1..], [c]));
    }
  }

  /** A string in which sep occurs exactly once splits into the text before
      and the text after that occurrence. */
  lemma PiecesOfSingleOccurrence(s: string, sep: string, m: nat)
    requires |sep| > 0 && OccursAt(s, sep, m)
    requires forall j :: OccursAt(s, sep, j) ==> j == m
    ensures Pieces(s, sep) == [s[..m], s[m + |sep|..]]
  {
    var rest := s[m + |sep|..];
    forall j: nat | OccursAt(rest, sep, j)
      ensures false
    {
      assert rest[j..j + |sep|] == s[m + |sep| + j..m + |sep| + j + |sep|];
      assert OccursAt(s, sep, m + |sep| + j);
    }
    assert FirstOccurrence(rest, sep, 0).None?;
  }
}
