/**
 * The string logic of `addTitle`: the page title "<libraries> - <content>"
 * is cut at the first " - " into the two parts the page header shows.
 */
module DomUtils {

  import opened JsBuiltins

  const Separator: string := " - "

  datatype TitleParts = TitleParts(libraries: string, content: string)

  /**
   * `title.slice(0, title.indexOf(' - '))` and
   * `title.slice(title.indexOf(' - ') + 3)`. With the separator present
   * the title is cut at its first occurrence; without it `indexOf` gives
   * -1, so `slice(0, -1)` drops the last character and `slice(2)` the
   * first two, and the header repeats part of the title instead of
   * reproducing it.
   */
  function SplitTitle(title: string): (parts: TitleParts)
    ensures Occurs(title, Separator) ==> parts.libraries + Separator + parts.content == title
    ensures Occurs(title, Separator) ==> OccursAt(title, Separator, |parts.libraries|)
    ensures Occurs(title, Separator) ==>
      forall k :: 0 <= k < |parts.libraries| ==> !OccursAt(title, Separator, k)
    ensures !Occurs(parts.libraries, Separator)
    ensures !Occurs(title, Separator) ==>
      parts.libraries == if title == [] then [] else title[..|title| - 1]
    ensures !Occurs(title, Separator) ==>
      parts.content == if |title| <= 2 then [] else title[2..]
  {
    var i := StringIndexOf(title, Separator);
    var parts := TitleParts(Slice(title, 0, i), Slice(title, i + 3, |title|));
    assert parts.libraries == title[..RelativeIndex(|title|, i)];
    PrefixWithoutOccurrence(title, Separator, |parts.libraries|);
    parts
  }

  /** With the separator present, the two parts and the separator account for every character. */
  lemma SplitTitleLengths(title: string)
    requires Occurs(title, Separator)
    ensures var parts := SplitTitle(title);
      |parts.libraries| + |parts.content| + 3 == |title|
  {
  }

  /** A concrete instance: the title "BloonZ" shows as "Bloon - oonZ". */
  lemma SplitTitleWithoutSeparatorExample()
    ensures SplitTitle("BloonZ") == TitleParts("Bloon", "oonZ")
  {
    NoSpaceNoSeparator("BloonZ");
    assert "BloonZ"[..5] == "Bloon";
    assert "BloonZ"[2..] == "oonZ";
  }

  /** A title without a space cannot contain the separator. */
  lemma NoSpaceNoSeparator(title: string)
    requires forall j :: 0 <= j < |title| ==> title[j] != ' '
    ensures !Occurs(title, Separator)
  {
    forall k | 0 <= k <= |title| ensures !OccursAt(title, Separator, k) {
      if k + 3 <= |title| {
        assert title[k..k + 3][0] == title[k] != Separator[0];
      }
    }
  }
}
