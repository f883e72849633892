/** `display_help`: the labyrinth's two help pages. */
module LabyHelp {
  import opened RustStr

  /** One line of a help page: `- <verb><params>: <description>`. */
  datatype HelpEntry = HelpEntry(verb: string, params: string, description: string)

  const Header: string := "\nSHOWING 'Labyrinth' COMMANDS\n"
  const Underline: string := "============================\n\n"

  const FirstPage: seq<HelpEntry> := [
    HelpEntry("help", "", "Displays this message"),
    HelpEntry("clear", "", "Clears commands on the screen"),
    HelpEntry("tutorial", "", "Show the tutorial for this game"),
    HelpEntry("go", " <direction>", "Move the player to the next direction"),
    HelpEntry("ragequit", "", "Leaves the game (you will lose your progress)"),
    HelpEntry("infos", "", "Display informations about the place you stand")
  ]

  const SecondPage: seq<HelpEntry> := [
    HelpEntry("continue", "", "to continue a story/speech"),
    HelpEntry("skip", "", "skip this room to go to the next"),
    HelpEntry("attack", "", "attacks the monster / NPC")
  ]

  /** Page 1 is the first page; every other number, 0 included, shows the second. */
  function PageEntries(page: usize): seq<HelpEntry> {
    if page == 1 then FirstPage else SecondPage
  }

  function EntryLine(e: HelpEntry): string {
    "- " + e.verb + e.params + ": " + e.description + "\n"
  }

  function EntryLines(es: seq<HelpEntry>): string {
    if es == [] then "" else EntryLine(es[0]) + EntryLines(es[1..])
  }

  /** The verbs a list of entries documents, in order. */
  function EntryVerbs(es: seq<HelpEntry>): (r: seq<string>)
    ensures |r| == |es| && forall i :: 0 <= i < |es| ==> r[i] == es[i].verb
  {
    if es == [] then [] else [es[0].verb] + EntryVerbs(es[1..])
  }

  /** The last line of a page, `(n/2)`: the number it shows reads back as
      the page that was asked for. */
  const FooterOpen := "\n============("
  const FooterClose := "/2)===========\n"

  function Footer(page: usize): (r: string)
    ensures |FooterOpen| + |FooterClose| <= |r|
    ensures r[..|FooterOpen|] == FooterOpen && r[|r| - |FooterClose|..] == FooterClose
    ensures ParseUsize(r[|FooterOpen|..|r| - |FooterClose|]) == Some(page)
  {
    var digits := NatToString(page);
    var r := FooterOpen + digits + FooterClose;
    ParseFormatted(page);
    Slices(FooterOpen, digits, FooterClose);
    r
  }

  /** `display_help(page_number)`; `HelpLayout` states its shape. */
  function DisplayHelp(page: usize): string {
    Header + Underline + EntryLines(PageEntries(page)) + Footer(page)
  }

  /** Every help page starts with the header and its underline and ends with
      a footer that names the page out of two; between them are the page's
      entries, one line each. */
  lemma HelpLayout(page: usize)
    ensures var r, banner := DisplayHelp(page), Header + Underline;
      |banner| + |Footer(page)| <= |r| &&
      r[..|banner|] == banner &&
      r[|banner|..|r| - |Footer(page)|] == EntryLines(PageEntries(page)) &&
      r[|r| - |Footer(page)|..] == Footer(page)
  {
    Slices(Header + Underline, EntryLines(PageEntries(page)), Footer(page));
  }

  lemma Slices(a: string, b: string, c: string)
    ensures var r := a + b + c;
      r[..|a|] == a && r[|a|..|r| - |c|] == b && r[|r| - |c|..] == c
  {
    var r := a + b + c;
    assert r[..|a|] == a;
    assert r[|a|..|r| - |c|] == b;
  }

  /** Page 1 lists help, clear, tutorial, go, ragequit and infos; every other
      page number lists continue, skip and attack. */
  lemma HelpPages(page: usize)
    ensures EntryVerbs(PageEntries(page)) ==
      if page == 1 then ["help", "clear", "tutorial", "go", "ragequit", "infos"]
      else ["continue", "skip", "attack"]
  {
  }
}
