/**
 * The small pure helpers of today.py behind the rendered statistics:
 * `format_plural`, `stars_counter`, and the dot padding `justify_format`
 * computes for a value shown in a field of a given width.
 */
module Display {
  import opened Wrappers
  import opened Text

  /** `format_plural(unit)`: the suffix for "year", "month", "day". */
  function FormatPlural(unit: int): (suffix: string)
    ensures suffix == [] <==> unit == 1
    ensures suffix != [] ==> suffix == "s"
  {
    if unit != 1 then "s" else ""
  }

  // ---------------------------------------------------------------- stars

  /** A repository of the listing query: `nameWithOwner` and `stargazers.totalCount`. */
  datatype RepoNode = RepoNode(nameWithOwner: string, stars: int)

  /** `stars_counter(edges)`: the stargazer counts summed over the repositories. */
  function StarsCounter(nodes: seq<RepoNode>): (total: int)
    ensures (forall i :: 0 <= i < |nodes| ==> nodes[i].stars >= 0) ==> total >= 0
    ensures (forall i :: 0 <= i < |nodes| ==> nodes[i].stars >= 0) ==> forall i :: 0 <= i < |nodes| ==> nodes[i].stars <= total
  {
    if nodes == [] then 0 else StarsCounter(nodes[..|nodes| - 1]) + nodes[|nodes| - 1].stars
  }

  /** Counting a listing page by page gives the count of the whole listing. */
  lemma {:induction false} StarsAppend(a: seq<RepoNode>, b: seq<RepoNode>)
    ensures StarsCounter(a + b) == StarsCounter(a) + StarsCounter(b)
    decreases |b|
  {
    if b == [] {
      assert a + b == a;
    } else {
      var n := |b| - 1;
      assert (a + b)[..|a + b| - 1] == a + b[..n];
      StarsAppend(a, b[..n]);
    }
  }

  // ------------------------------------------------- thousands separators

  /** Python's `'{:,}'.format(n)` on the digits of a magnitude: a comma before every group of three from the right. */
  function Group(digits: string): string
    decreases |digits|
  {
    if |digits| <= 3 then digits else Group(digits[..|digits| - 3]) + "," + digits[|digits| - 3..]
  }

  /** `'{:,}'.format(n)`. */
  function GroupThousands(n: int): string
  {
    if n < 0 then "-" + Group(NatStr(-n)) else Group(NatStr(n))
  }

  /** The text with its commas removed. */
  function StripCommas(s: string): string
  {
    if s == [] then [] else StripCommas(s[..|s| - 1]) + (if s[|s| - 1] == ',' then [] else [s[|s| - 1]])
  }

  lemma {:induction false} StripCommasAppend(a: string, b: string)
    ensures StripCommas(a + b) == StripCommas(a) + StripCommas(b)
    decreases |b|
  {
    if b == [] {
      assert a + b == a;
    } else {
      var n := |b| - 1;
      assert (a + b)[..|a + b| - 1] == a + b[..n];
      StripCommasAppend(a, b[..n]);
    }
  }

  lemma {:induction false} StripNoCommas(s: string)
    requires forall i :: 0 <= i < |s| ==> s[i] != ','
    ensures StripCommas(s) == s
  {
    if s != [] {
      StripNoCommas(s[..|s| - 1]);
    }
  }

  /** Removing the separators gives the digits back. */
  lemma {:induction false} StripGroup(digits: string)
    requires forall i :: 0 <= i < |digits| ==> digits[i] != ','
    ensures StripCommas(Group(digits)) == digits
    decreases |digits|
  {
    if |digits| <= 3 {
      StripNoCommas(digits);
    } else {
      var n := |digits| - 3;
      StripGroup(digits[..n]);
      StripCommasAppend(Group(digits[..n]) + ",", digits[n..]);
      StripCommasAppend(Group(digits[..n]), ",");
      StripNoCommas(digits[n..]);
      assert digits[..n] + digits[n..] == digits;
    }
  }

  /** A group of `k` digits takes one comma for every three digits beyond the first group. */
  lemma {:induction false} GroupLength(digits: string)
    requires digits != []
    ensures |Group(digits)| == |digits| + (|digits| - 1) / 3
    decreases |digits|
  {
    if |digits| > 3 {
      GroupLength(digits[..|digits| - 3]);
    }
  }

  /** The separated number reads back as the number: stripping the commas gives `str(n)`. */
  lemma GroupThousandsReadsBack(n: int)
    ensures StripCommas(GroupThousands(n)) == Str(n)
    ensures ParseInt(StripCommas(GroupThousands(n))) == Some(n)
  {
    var m: nat := if n < 0 then -n else n;
    NatStrDigits(m);
    StripGroup(NatStr(m));
    if n < 0 {
      StripCommasAppend("-", Group(NatStr(m)));
      assert StripCommas("-") == "-" by {
        assert "-"[..0] == [];
      }
    }
    ParseStr(n);
  }

  // ------------------------------------------------------------- padding

  /** The value `justify_format` shows: an `int` with thousands separators, anything else as its text. */
  datatype Shown = Number(n: int) | Words(text: string)

  function ShownText(v: Shown): string
  {
    match v
    case Number(n) => GroupThousands(n)
    case Words(text) => text
  }

  /** `max(0, length - len(new_text))`: how far the text falls short of the field width. */
  function JustLen(length: int, text: string): (gap: nat)
    ensures |text| + gap >= length
    ensures gap > 0 ==> |text| + gap == length
  {
    if length - |text| > 0 then length - |text| else 0
  }

  /** `dot_map.get(just_len, ' ' + '.' * just_len + ' ')`. */
  function DotString(gap: nat): (dots: string)
    ensures gap <= 2 ==> |dots| == gap
    ensures gap == 1 ==> dots == " "
    ensures gap == 2 ==> dots == ". "
    ensures gap > 2 ==> |dots| == gap + 2 && dots[0] == ' ' && dots[|dots| - 1] == ' '
    ensures gap > 2 ==> forall i :: 0 < i < |dots| - 1 ==> dots[i] == '.'
  {
    if gap == 0 then ""
    else if gap == 1 then " "
    else if gap == 2 then ". "
    else " " + seq(gap, _ => '.') + " "
  }

  /** The dots `justify_format` writes beside the value `v` in a field `length` wide. */
  function DotsFor(v: Shown, length: int): string
  {
    DotString(JustLen(length, ShownText(v)))
  }

  /**
   * The dots and the value together: exactly the field width when the value
   * falls short by one or two characters, the value alone when it fills the
   * field, and two characters more than the width when it falls short by
   * three or more (the dots are framed by a space on each side).
   */
  lemma JustifiedWidth(v: Shown, length: int)
    ensures var text := ShownText(v);
      var width := |DotsFor(v, length)| + |text|;
      && (|text| >= length ==> width == |text|)
      && (length - 2 <= |text| < length ==> width == length)
      && (|text| < length - 2 ==> width == length + 2)
  {
  }

  /** The width of a number shown with thousands separators. */
  lemma NumberWidth(n: int)
    ensures var digits := |NatStr(if n < 0 then -n else n)|;
      |ShownText(Number(n))| == (if n < 0 then 1 else 0) + digits + (digits - 1) / 3
  {
    var m: nat := if n < 0 then -n else n;
    GroupLength(NatStr(m));
  }
}
