/** Deriving the CRM's first and last name from the submitted full name:
    split on whitespace, pop the last token as the last name, and join
    the rest with single spaces as the first name. */
module Names {
  import opened Text

  datatype ParsedName = ParsedName(first: string, last: string)

  /** The handler's name split: the last whitespace-separated token is
      the last name (none for a blank name), and the tokens before it,
      joined by single spaces, are the first name. */
  function SplitName(full: string): ParsedName {
    var parts := Split(Strip(full));
    if |parts| == 0 then ParsedName(Join(parts), "")
    else ParsedName(Join(parts[..|parts| - 1]), parts[|parts| - 1])
  }

  /** The last name is empty exactly when the full name has no
      non-whitespace character; otherwise it is the last token, the first
      name holds the other tokens, and the first name is empty exactly
      when there is one token. */
  lemma SplitNameSpec(full: string)
    ensures SplitName(full).last == "" <==> AllSpace(full)
    ensures SplitName(full).last != "" ==> IsWord(SplitName(full).last)
    ensures SplitName(full).last != "" ==>
      Split(full) == Split(SplitName(full).first) + [SplitName(full).last]
    ensures SplitName(full).first == "" <==> |Split(full)| <= 1
    ensures Normalized(SplitName(full).first)
  {
    SplitStrip(full);
    SplitEmptyIff(full);
    var parts := Split(full);
    if parts != [] {
      PoppedName(parts);
    } else {
      assert SplitName(full).first == Join([]);
    }
  }

  /** What popping the last of a non-empty token list and joining the
      rest gives. */
  lemma PoppedName(parts: seq<string>)
    requires AllWords(parts) && parts != []
    ensures IsWord(parts[|parts| - 1])
    ensures parts == Split(Join(parts[..|parts| - 1])) + [parts[|parts| - 1]]
    ensures Join(parts[..|parts| - 1]) == "" <==> |parts| == 1
    ensures Normalized(Join(parts[..|parts| - 1]))
  {
    var init := parts[..|parts| - 1];
    JoinNormalized(init);
    assert parts == init + [parts[|parts| - 1]];
    SplitJoin(init);
    if init != [] {
      JoinEnds(init);
    }
  }

  /** The full name as the CRM record spells it: first and last name
      separated by one space, or the last name alone. */
  function Rejoin(p: ParsedName): string {
    if p.first != "" then p.first + " " + p.last else p.last
  }

  /** Round trip: putting the two halves back together gives the full
      name with its whitespace normalized. */
  lemma NameRoundTrip(full: string)
    ensures Rejoin(SplitName(full)) == Normalize(full)
  {
    SplitStrip(full);
    var parts := Split(full);
    if |parts| >= 2 {
      JoinLast(parts);
    }
  }

  /** The name split of a full name written as `" ".join(ws)`. */
  lemma SplitNameOfWords(full: string, ws: seq<string>)
    requires AllWords(ws) && |ws| > 0 && Join(ws) == full
    ensures SplitName(full) == ParsedName(Join(ws[..|ws| - 1]), ws[|ws| - 1])
  {
    SplitJoin(ws);
    SplitStrip(full);
  }

  /** The name split depends only on the tokens of the full name. */
  lemma SplitNameSameTokens(a: string, b: string)
    requires Split(a) == Split(b)
    ensures SplitName(a) == SplitName(b)
  {
    SplitStrip(a);
    SplitStrip(b);
  }

  /** Specimen: a three-word Vietnamese name. */
  lemma SplitNameThreeWords()
    ensures SplitName("Nguyễn Văn A") == ParsedName("Nguyễn Văn", "A")
  {
    var ws := ["Nguyễn", "Văn", "A"];
    assert ws[..2] == ["Nguyễn", "Văn"];
    assert Join(ws[..2]) == "Nguyễn Văn";
    assert AllWords(ws);
    assert Join(ws) == "Nguyễn Văn A";
    SplitNameOfWords("Nguyễn Văn A", ws);
  }

  /** Specimen: a single-word name, bare and padded with whitespace. */
  lemma SplitNameOneWord()
    ensures SplitName("Linh") == ParsedName("", "Linh")
    ensures SplitName("  Linh \t") == ParsedName("", "Linh")
  {
    SplitNameOfWords("Linh", ["Linh"]);
    var padded := "  Linh \t";
    assert padded == "  " + ("Linh" + " \t");
    SplitPrependSpace("  ", "Linh" + " \t");
    SplitAppendSpace("Linh", " \t");
    SplitNameSameTokens(padded, "Linh");
  }
}
