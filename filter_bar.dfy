/** The filter bar: the active tab is the second segment of the path split on "/", the bar is
    hidden when that segment is empty or absent, and the program and genre selects map the
    sentinel "all" to an empty selection and any other value to a one-element selection. */
module FilterBar {
  import opened Results
  import opened Filters

  /** JavaScript's `s.split(sep)` for a one-character separator. */
  function Split(s: string, sep: char): (parts: seq<string>)
    ensures |parts| >= 1
    ensures forall i, j :: 0 <= i < |parts| && 0 <= j < |parts[i]| ==> parts[i][j] != sep
    decreases |s|
  {
    if s == [] then [""]
    else
      var rest := Split(s[1..], sep);
      if s[0] == sep then [""] + rest else [[s[0]] + rest[0]] + rest[1..]
  }

  /** The parts put back together with the separator between them. */
  function Join(parts: seq<string>, sep: char): string
    requires |parts| >= 1
  {
    if |parts| == 1 then parts[0] else parts[0] + [sep] + Join(parts[1..], sep)
  }

  /** Splitting loses nothing: joining the parts gives the text back. */
  lemma {:induction false} JoinSplit(s: string, sep: char)
    ensures Join(Split(s, sep), sep) == s
    decreases |s|
  {
    if s != [] {
      var rest := Split(s[1..], sep);
      JoinSplit(s[1..], sep);
      if s[0] == sep {
        assert Split(s, sep)[1..] == rest;
      } else {
        var parts := Split(s, sep);
        assert parts[0] == [s[0]] + rest[0];
        if |rest| == 1 {
          assert Join(parts, sep) == parts[0];
        } else {
          assert parts[1..] == rest[1..];
          assert Join(parts, sep) == [s[0]] + rest[0] + [sep] + Join(rest[1..], sep);
        }
      }
    }
  }

  /** `pathname.split("/")[1]`: `None` stands for `undefined`. */
  function ActiveTab(pathname: string): Option<string>
  {
    var parts := Split(pathname, '/');
    if |parts| > 1 then Some(parts[1]) else None
  }

  /** `if (!activeTab) return null` */
  predicate ShowsBar(pathname: string)
  {
    ActiveTab(pathname).Some? && ActiveTab(pathname).value != ""
  }

  lemma {:induction false} SplitNoSeparator(s: string, sep: char)
    requires forall i :: 0 <= i < |s| ==> s[i] != sep
    ensures Split(s, sep) == [s]
    decreases |s|
  {
    if s != [] {
      SplitNoSeparator(s[1..], sep);
      assert [s[0]] + s[1..] == s;
    }
  }

  lemma {:induction false} SplitAfterSegment(seg: string, rest: string, sep: char)
    requires forall i :: 0 <= i < |seg| ==> seg[i] != sep
    ensures Split(seg + [sep] + rest, sep) == [seg] + Split(rest, sep)
    decreases |seg|
  {
    var s := seg + [sep] + rest;
    if seg == [] {
      assert s[0] == sep && s[1..] == rest;
    } else {
      assert s[0] == seg[0] && s[1..] == seg[1..] + [sep] + rest;
      SplitAfterSegment(seg[1..], rest, sep);
      assert [seg[0]] + seg[1..] == seg;
    }
  }

  /** A path "/<tab>" or "/<tab>/..." has `<tab>` as its active tab. */
  lemma ActiveTabOfPath(tab: string, rest: string)
    requires forall i :: 0 <= i < |tab| ==> tab[i] != '/'
    requires rest == [] || rest[0] == '/'
    ensures ActiveTab("/" + tab + rest) == Some(tab)
    ensures ShowsBar("/" + tab + rest) <==> tab != ""
  {
    assert "/" + tab + rest == [] + ['/'] + (tab + rest);
    SplitAfterSegment([], tab + rest, '/');
    if rest == [] {
      assert tab + rest == tab;
      SplitNoSeparator(tab, '/');
    } else {
      assert tab + rest == tab + ['/'] + rest[1..];
      SplitAfterSegment(tab, rest[1..], '/');
    }
  }

  /** A path with no "/" has no active tab, and the bar is hidden. */
  lemma NoTabWithoutSlash(pathname: string)
    requires forall i :: 0 <= i < |pathname| ==> pathname[i] != '/'
    ensures ActiveTab(pathname) == None && !ShowsBar(pathname)
  {
    SplitNoSeparator(pathname, '/');
  }

  const AllValue := "all"

  /** `value === "all" ? [] : [value]` */
  function SelectionFor(value: string): (sel: seq<string>)
    ensures |sel| <= 1
    ensures sel == [] <==> value == AllValue
  {
    if value == AllValue then [] else [value]
  }

  /** `selected[0] || "all"`: the first selected id, or "all" when there is none or it is empty. */
  function DisplayedValue(selected: seq<string>): string
  {
    if |selected| > 0 && selected[0] != "" then selected[0] else AllValue
  }

  /** Choosing a value and displaying the selection shows that value again. */
  lemma DisplaySelection(value: string)
    requires value != ""
    ensures DisplayedValue(SelectionFor(value)) == value
  {
  }

  /** The update the program select sends. */
  function ProgramChoice(value: string): FilterUpdate
  {
    NoChange.(selectedPrograms := Some(SelectionFor(value)))
  }

  /** The update the genre select sends. */
  function GenreChoice(value: string): FilterUpdate
  {
    NoChange.(selectedGenres := Some(SelectionFor(value)))
  }

  /** After a program choice at most one program is selected, the select shows the choice, and
      nothing else in the filters changes. */
  lemma ChooseProgram(f: FilterState, value: string)
    requires value != ""
    ensures var g := Merge(f, ProgramChoice(value));
      |g.selectedPrograms| <= 1 && DisplayedValue(g.selectedPrograms) == value
      && g == f.(selectedPrograms := g.selectedPrograms)
  {
    DisplaySelection(value);
  }

  /** The same for the genre select. */
  lemma ChooseGenre(f: FilterState, value: string)
    requires value != ""
    ensures var g := Merge(f, GenreChoice(value));
      |g.selectedGenres| <= 1 && DisplayedValue(g.selectedGenres) == value
      && g == f.(selectedGenres := g.selectedGenres)
  {
    DisplaySelection(value);
  }
}
