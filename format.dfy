/** The display helpers of client/src/utils/format.js: text truncation, the
    rounded percentage, and the per-category colour and icon tables with
    their fallback to `Other`. */
module Format {
  import opened Wrappers
  import opened Text
  import opened Schema

  // ---------------------------------------------------------------------
  // truncateText
  // ---------------------------------------------------------------------

  /** The `maxLength` used when the caller gives none. */
  const DefaultMaxLength := 50

  /** `"..."` as code units. */
  const Ellipsis: seq<CodeUnit> := [0x2E, 0x2E, 0x2E]

  /** An index argument of `substring`, clamped to `[0, len]`. */
  function ClampIndex(i: int, len: nat): (r: nat)
    ensures r <= len
    ensures 0 <= i <= len ==> r == i
  {
    if i < 0 then 0 else if i > len then len else i
  }

  /** `s.substring(start, end)`: the code units between the two clamped
      indices, whichever comes first. */
  function Substring(s: seq<CodeUnit>, start: int, end: int): (r: seq<CodeUnit>)
    ensures 0 <= start <= end <= |s| ==> r == s[start..end]
    ensures start <= 0 && end >= 0 ==> r == s[..ClampIndex(end, |s|)]
  {
    var a, b := ClampIndex(start, |s|), ClampIndex(end, |s|);
    if a <= b then s[a..b] else s[b..a]
  }

  /** `truncateText(text, maxLength)`, on the code units of the string: the
      empty text stays empty, a text of at most `maxLength` units is kept,
      and a longer one is cut to its first `maxLength` units (none when
      `maxLength` is negative) followed by `"..."`. */
  function TruncateText(text: seq<CodeUnit>, maxLength: int): (r: seq<CodeUnit>)
    ensures text == [] ==> r == []
    ensures |text| <= maxLength ==> r == text
    ensures text != [] && |text| > maxLength ==>
      |r| == (if maxLength < 0 then 0 else maxLength) + 3
      && r[..|r| - 3] == text[..|r| - 3] && r[|r| - 3..] == Ellipsis
    ensures maxLength >= 0 ==> |r| <= maxLength + 3
  {
    if text == [] then []
    else if |text| > maxLength then Substring(text, 0, maxLength) + Ellipsis
    else text
  }

  /** `truncateText(text)`: the default limit of 50 code units. */
  function TruncateDefault(text: seq<CodeUnit>): (r: seq<CodeUnit>)
    ensures |text| <= DefaultMaxLength ==> r == text
    ensures |text| > DefaultMaxLength ==>
      |r| == DefaultMaxLength + 3 && r == text[..DefaultMaxLength] + Ellipsis
  {
    TruncateText(text, DefaultMaxLength)
  }

  /** A truncated text is not truncated again. */
  lemma TruncateIdempotent(text: seq<CodeUnit>, maxLength: int)
    ensures TruncateText(TruncateText(text, maxLength), maxLength) == TruncateText(text, maxLength)
  {
    var once := TruncateText(text, maxLength);
    if text != [] && |text| > maxLength {
      var keep := if maxLength < 0 then 0 else maxLength;
      assert once == text[..keep] + Ellipsis;
      assert once[..keep] == text[..keep];
    }
  }

  /** On a text of characters: the kept part is measured in UTF-16 code
      units, so a character above U+FFFF counts twice. */
  lemma TruncateCountsCodeUnits(s: string, maxLength: int)
    requires Utf16Length(s) <= maxLength
    ensures TruncateText(Utf16Encode(s), maxLength) == Utf16Encode(s)
  {
  }

  // ---------------------------------------------------------------------
  // calculatePercentage
  // ---------------------------------------------------------------------

  /** `Math.round`: the nearest integer, halves rounded up. */
  function Round(x: real): (r: int)
    ensures r as real - 0.5 <= x < r as real + 0.5
  {
    (x + 0.5).Floor
  }

  /** `calculatePercentage(value, total)`: 0 for a zero total, otherwise
      the share of `value` in `total`, in percent, rounded. */
  function CalculatePercentage(value: int, total: int): (r: int)
    ensures total == 0 ==> r == 0
    ensures total != 0 ==>
      r as real - 0.5 <= (100 * value) as real / total as real < r as real + 0.5
  {
    if total == 0 then 0
    else
      ShareInPercent(value, total);
      Round(value as real / total as real * 100.0)
  }

  /** The share times 100 is 100 times the value, shared. */
  lemma ShareInPercent(value: int, total: int)
    requires total != 0
    ensures value as real / total as real * 100.0 == (100 * value) as real / total as real
  {
    var share := value as real / total as real;
    var q := (100 * value) as real / total as real;
    assert share * total as real == value as real;
    assert q * total as real == (100 * value) as real;
    assert (share * 100.0 - q) * total as real == 0.0;
  }

  /** A part of a positive whole is between 0 and 100 percent. */
  lemma PercentageBounds(value: int, total: int)
    requires 0 <= value <= total
    ensures 0 <= CalculatePercentage(value, total) <= 100
  {
    if total != 0 {
      var q := (100 * value) as real / total as real;
      assert q * total as real == (100 * value) as real;
      assert 0.0 <= q <= 100.0;
    }
  }

  /** With a positive total, a larger value never gets a smaller
      percentage. */
  lemma PercentageMonotone(v1: int, v2: int, total: int)
    requires v1 <= v2 && total > 0
    ensures CalculatePercentage(v1, total) <= CalculatePercentage(v2, total)
  {
    var q1 := (100 * v1) as real / total as real;
    var q2 := (100 * v2) as real / total as real;
    assert q1 * total as real == (100 * v1) as real;
    assert q2 * total as real == (100 * v2) as real;
    assert q1 <= q2;
  }

  // ---------------------------------------------------------------------
  // getCategoryColor and getCategoryIcon
  // ---------------------------------------------------------------------

  /** The `colors` object. */
  const Colors: map<string, string> := map[
    "Food" := "bg-orange-100 text-orange-800",
    "Transport" := "bg-blue-100 text-blue-800",
    "Entertainment" := "bg-purple-100 text-purple-800",
    "Shopping" := "bg-pink-100 text-pink-800",
    "Bills" := "bg-red-100 text-red-800",
    "Healthcare" := "bg-green-100 text-green-800",
    "Education" := "bg-indigo-100 text-indigo-800",
    "Other" := "bg-gray-100 text-gray-800"
  ]

  /** The `icons` object. */
  const Icons: map<string, string> := map[
    "Food" := "\U{1F37D}\U{FE0F}",
    "Transport" := "\U{1F697}",
    "Entertainment" := "\U{1F3AC}",
    "Shopping" := "\U{1F6CD}\U{FE0F}",
    "Bills" := "\U{1F4C4}",
    "Healthcare" := "\U{1F3E5}",
    "Education" := "\U{1F4DA}",
    "Other" := "\U{1F4E6}"
  ]

  /** `table[key] || table.Other`: a missing or empty entry falls back to
      the `Other` entry. */
  function Lookup(table: map<string, string>, key: string): (r: string)
    requires "Other" in table
    ensures key in table && table[key] != "" ==> r == table[key]
    ensures key !in table ==> r == table["Other"]
  {
    if key in table && table[key] != "" then table[key] else table["Other"]
  }

  /** The tables have exactly the category names as keys. */
  lemma {:induction false} KeysAreCategories(key: string)
    ensures key in Colors <==> ParseCategory(key).Some?
    ensures key in Icons <==> ParseCategory(key).Some?
  {
    if ParseCategory(key).Some? {
      var c := ParseCategory(key).value;
      assert key == CategoryName(c);
    }
  }

  /** `getCategoryColor(category)`. */
  function CategoryColor(category: string): (r: string)
    ensures ParseCategory(category).Some? ==> r == Colors[category]
    ensures ParseCategory(category).None? ==> r == Colors["Other"]
    ensures r != ""
  {
    KeysAreCategories(category);
    Lookup(Colors, category)
  }

  /** `getCategoryIcon(category)`. */
  function CategoryIcon(category: string): (r: string)
    ensures ParseCategory(category).Some? ==> r == Icons[category]
    ensures ParseCategory(category).None? ==> r == Icons["Other"]
    ensures r != ""
  {
    KeysAreCategories(category);
    Lookup(Icons, category)
  }

  /** Every category has its own colour and its own icon; a name outside
      the enumeration shows as `Other`. */
  lemma CategoryStylesDistinct(c: Category, d: Category, unknown: string)
    requires c != d && ParseCategory(unknown).None?
    ensures CategoryColor(CategoryName(c)) != CategoryColor(CategoryName(d))
    ensures CategoryIcon(CategoryName(c)) != CategoryIcon(CategoryName(d))
    ensures CategoryColor(unknown) == CategoryColor(CategoryName(Other))
    ensures CategoryIcon(unknown) == CategoryIcon(CategoryName(Other))
  {
    CategoryNameRoundTrip(c);
    CategoryNameRoundTrip(d);
    CategoryNameRoundTrip(Other);
  }
}
