/**
 * The string helpers of `utils/formatters.ts`: `formatDate`, `parseBRL`, and
 * the lower-casing and substring test the order screen applies to names.
 */
module Formatters {
  import opened Wrappers
  import opened Numbers
  import Seqs

  /** `s.split(sep)`: the pieces between separators; never empty, and the empty string gives `[""]`. */
  function Split(s: string, sep: char): (parts: seq<string>)
    ensures |parts| >= 1
    ensures forall p :: p in parts ==> sep !in p
  {
    if s == [] then [""]
    else
      var rest := Split(s[1..], sep);
      if s[0] == sep then [""] + rest
      else [[s[0]] + rest[0]] + rest[1..]
  }

  /** `parts.join(sep)`. */
  function Join(parts: seq<string>, sep: char): string {
    if parts == [] then ""
    else if |parts| == 1 then parts[0]
    else parts[0] + [sep] + Join(parts[1..], sep)
  }

  /** Splitting loses nothing: joining the pieces back gives the original string. */
  lemma {:induction false} JoinSplit(s: string, sep: char)
    ensures Join(Split(s, sep), sep) == s
  {
    if s != [] {
      var rest := Split(s[1..], sep);
      JoinSplit(s[1..], sep);
      if s[0] == sep {
        assert Split(s, sep) == [""] + rest;
        assert ([""] + rest)[1..] == rest;
      } else {
        var parts := [[s[0]] + rest[0]] + rest[1..];
        assert Split(s, sep) == parts;
        if |rest| > 1 {
          assert parts[1..] == rest[1..];
          assert Join(rest, sep) == rest[0] + [sep] + Join(rest[1..], sep);
        }
      }
    }
  }

  /** A string without the separator splits into itself alone. */
  lemma {:induction false} SplitNoSeparator(a: string, sep: char)
    requires sep !in a
    ensures Split(a, sep) == [a]
  {
    if a != [] {
      SplitNoSeparator(a[1..], sep);
      assert [a[0]] + a[1..] == a;
    }
  }

  /** A separator-free prefix followed by a separator becomes the first piece. */
  lemma {:induction false} SplitFirstPiece(a: string, b: string, sep: char)
    requires sep !in a
    ensures Split(a + [sep] + b, sep) == [a] + Split(b, sep)
  {
    var s := a + [sep] + b;
    if a == [] {
      assert s[1..] == b;
    } else {
      assert s[1..] == a[1..] + [sep] + b;
      SplitFirstPiece(a[1..], b, sep);
      assert [a[0]] + a[1..] == a;
    }
  }

  /** Destructuring `const [year, month, day] = parts`: a missing piece reads as `undefined`. */
  function Piece(parts: seq<string>, i: nat): string {
    if i < |parts| then parts[i] else "undefined"
  }

  /**
   * `formatDate`: turns `YYYY-MM-DD` into `DD/MM/YYYY`. `split` never throws on
   * a string, so the `catch` fallback is never taken.
   */
  function FormatDate(dateStr: string): (shown: string)
    ensures var parts := Split(dateStr, '-');
      |parts| >= 3 ==> shown == parts[2] + "/" + parts[1] + "/" + parts[0]
    ensures var parts := Split(dateStr, '-');
      |parts| == 2 ==> shown == "undefined/" + parts[1] + "/" + parts[0]
    ensures var parts := Split(dateStr, '-');
      |parts| == 1 ==> shown == "undefined/undefined/" + parts[0]
  {
    var parts := Split(dateStr, '-');
    Piece(parts, 2) + "/" + Piece(parts, 1) + "/" + Piece(parts, 0)
  }

  /** An ISO date `Y-M-D` is shown as `D/M/Y`. */
  lemma FormatDateIso(y: string, m: string, d: string)
    requires '-' !in y && '-' !in m && '-' !in d
    ensures FormatDate(y + "-" + m + "-" + d) == d + "/" + m + "/" + y
  {
    assert y + "-" + m + "-" + d == y + ['-'] + (m + ['-'] + d);
    SplitFirstPiece(y, m + ['-'] + d, '-');
    SplitFirstPiece(m, d, '-');
    SplitNoSeparator(d, '-');
  }

  /** Pieces after the third are ignored. */
  lemma FormatDateIgnoresExtra(y: string, m: string, d: string, rest: string)
    requires '-' !in y && '-' !in m && '-' !in d
    ensures FormatDate(y + "-" + m + "-" + d + "-" + rest) == d + "/" + m + "/" + y
  {
    assert y + "-" + m + "-" + d + "-" + rest == y + ['-'] + (m + ['-'] + (d + ['-'] + rest));
    SplitFirstPiece(y, m + ['-'] + (d + ['-'] + rest), '-');
    SplitFirstPiece(m, d + ['-'] + rest, '-');
    SplitFirstPiece(d, rest, '-');
  }

  /** With fewer than three pieces, the missing ones are printed as the text `undefined`. */
  lemma FormatDateTwoPieces(y: string, m: string)
    requires '-' !in y && '-' !in m
    ensures FormatDate(y + "-" + m) == "undefined/" + m + "/" + y
  {
    SplitFirstPiece(y, m, '-');
    SplitNoSeparator(m, '-');
  }

  /** The characters `/[^\d,.-]/g` does not remove: ASCII digits, comma, dot and minus. */
  predicate IsAmountChar(c: char) {
    '0' <= c <= '9' || c == ',' || c == '.' || c == '-'
  }

  /** `val.replace(/[^\d,.-]/g, '')`. */
  function Clean(val: string): (cleaned: string)
    ensures forall c :: c in cleaned <==> c in val && IsAmountChar(c)
  {
    Seqs.Filter(val, IsAmountChar)
  }

  /** Cleaning keeps what it keeps in order: it works on each part of the text separately. */
  lemma CleanKeepsOrder(a: string, b: string)
    ensures Clean(a + b) == Clean(a) + Clean(b)
  {
    Seqs.FilterConcat(a, b, IsAmountChar);
  }

  /** Text made only of amount characters is left as it is. */
  lemma CleanKeepsAmounts(val: string)
    requires forall c :: c in val ==> IsAmountChar(c)
    ensures Clean(val) == val
  {
    Seqs.FilterKeepsAll(val, IsAmountChar);
  }

  /** `s.indexOf(c)`: the first position holding `c`, or -1. */
  function IndexOf(s: string, c: char): (k: int)
    ensures -1 <= k < |s|
    ensures k == -1 <==> c !in s
    ensures k >= 0 ==> s[k] == c && c !in s[..k]
  {
    if s == [] then -1
    else if s[0] == c then 0
    else
      var k := IndexOf(s[1..], c);
      if k == -1 then -1
      else
        assert s[..k + 1] == [s[0]] + s[1..][..k];
        k + 1
  }

  /** `s.replace(from, to)` with a string pattern: only the first occurrence changes. */
  function ReplaceFirst(s: string, from: char, to: char): (r: string)
    ensures r == if from !in s then s else s[IndexOf(s, from) := to]
  {
    if s == [] then []
    else if s[0] == from then [to] + s[1..]
    else [s[0]] + ReplaceFirst(s[1..], from, to)
  }

  /** The string handed to `parseFloat`: cleaned, then its first comma made a decimal point. */
  function Normalise(val: string): (normalised: string)
    ensures |normalised| == |Clean(val)|
    ensures forall c :: c in normalised ==> IsAmountChar(c)
    ensures forall i :: 0 <= i < |Clean(val)| && i != IndexOf(Clean(val), ',') ==> normalised[i] == Clean(val)[i]
    ensures IndexOf(Clean(val), ',') >= 0 ==> normalised[IndexOf(Clean(val), ',')] == '.'
  {
    ReplaceFirst(Clean(val), ',', '.')
  }

  /**
   * `parseBRL`: an empty input gives 0; otherwise the normalised text is
   * parsed by `parse` (the platform's `parseFloat`), and NaN or 0 gives 0.
   */
  function ParseBRL(val: string, parse: string -> Num): (amount: real)
    ensures val == "" ==> amount == 0.0
    ensures val != "" && parse(Normalise(val)).None? ==> amount == 0.0
    ensures val != "" && parse(Normalise(val)).Some? ==> amount == parse(Normalise(val)).value
  {
    if val == "" then 0.0 else OrZero(parse(Normalise(val)))
  }

  /** `toLowerCase` on one character (ASCII letters only). */
  function LowerChar(c: char): char {
    if 'A' <= c <= 'Z' then (c as int + 32) as char else c
  }

  /** `s.toLowerCase()` (ASCII letters only). */
  function ToLower(s: string): (r: string)
    ensures |r| == |s|
    ensures forall i :: 0 <= i < |s| ==> r[i] == LowerChar(s[i])
    ensures forall i :: 0 <= i < |r| ==> !('A' <= r[i] <= 'Z')
  {
    seq(|s|, i requires 0 <= i < |s| => LowerChar(s[i]))
  }

  /** Lower-casing twice changes nothing more. */
  lemma ToLowerIdempotent(s: string)
    ensures ToLower(ToLower(s)) == ToLower(s)
  {
  }

  /** `sub` appears in `s` starting at position `i`. */
  predicate OccursAt(s: string, sub: string, i: int) {
    0 <= i && i + |sub| <= |s| && s[i..i + |sub|] == sub
  }

  /** `s.includes(sub)`. */
  function Contains(s: string, sub: string): (b: bool)
    ensures b <==> exists i :: OccursAt(s, sub, i)
    decreases |s|
  {
    if |sub| > |s| then false
    else if s[..|sub|] == sub then
      assert OccursAt(s, sub, 0);
      true
    else
      var b := Contains(s[1..], sub);
      assert forall i :: OccursAt(s[1..], sub, i) ==> OccursAt(s, sub, i + 1) by {
        forall i | OccursAt(s[1..], sub, i) ensures OccursAt(s, sub, i + 1) {
          assert forall k :: 0 <= k < |sub| ==> sub[k] == s[1..][i + k] == s[i + 1 + k];
        }
      }
      assert forall i :: OccursAt(s, sub, i) ==> i >= 1 && OccursAt(s[1..], sub, i - 1) by {
        forall i | OccursAt(s, sub, i) ensures i >= 1 && OccursAt(s[1..], sub, i - 1) {
          assert i != 0 by { assert s[0..|sub|] == s[..|sub|]; }
          assert forall k :: 0 <= k < |sub| ==> sub[k] == s[i + k] == s[1..][i - 1 + k];
        }
      }
      b
  }
}
