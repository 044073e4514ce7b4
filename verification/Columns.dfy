/** Column names and the statuses they stand for. */
module Columns {
  import opened Points

  predicate IsSpace(c: char) {
    c == ' ' || '\t' <= c <= '\r'
  }

  function LowerChar(c: char): char {
    if 'A' <= c <= 'Z' then (c as int + 32) as char else c
  }

  function Lower(s: string): (l: string)
    ensures |l| == |s|
  {
    if s == "" then "" else [LowerChar(s[0])] + Lower(s[1..])
  }

  function TrimLeft(s: string): string {
    if s != "" && IsSpace(s[0]) then TrimLeft(s[1..]) else s
  }

  function TrimRight(s: string): string {
    if s != "" && IsSpace(s[|s| - 1]) then TrimRight(s[..|s| - 1]) else s
  }

  function TrimSpace(s: string): string {
    TrimRight(TrimLeft(s))
  }

  predicate EndsWith(s: string, suffix: string) {
    |suffix| <= |s| && s[|s| - |suffix|..] == suffix
  }

  /** The fixed table of column titles; every entry's id is this name with the suffix "-0". */
  function TitleToName(title: string): Option<string> {
    if title == "todo" || title == "to do" || title == "To Do" || title == "Todo" then Some("todo")
    else if title == "inprogress" || title == "in progress" || title == "in-progress"
      || title == "in_progress" || title == "In Progress" then Some("inprogress")
    else if title == "done" || title == "Done" then Some("done")
    else if title == "review" || title == "Review" then Some("review")
    else if title == "Backlog" then Some("backlog")
    else if title == "Cancelled" then Some("cancelled")
    else if title == "blocked" then Some("blocked")
    else if title == "archived" then Some("archived")
    else None
  }

  /** The canonical column id of a title or an id. */
  function GetColumnID(title: string): string {
    var s := TrimSpace(title);
    if s == "" then "todo" + "-0"
    else
      var lower := Lower(s);
      if lower == "doing" || lower == "doing-0" then "inprogress" + "-0"
      else if |lower| > 2 && EndsWith(lower, "-0") then lower
      else if TitleToName(lower).Some? then TitleToName(lower).value + "-0"
      else if TitleToName(s).Some? then TitleToName(s).value + "-0"
      else lower + "-0"
  }

  // ---------------------------------------------------------------- canonical ids

  ghost predicate Trimmed(s: string) {
    s != "" && !IsSpace(s[0]) && !IsSpace(s[|s| - 1])
  }

  lemma {:induction false} TrimLeftStarts(s: string)
    ensures TrimLeft(s) != "" ==> !IsSpace(TrimLeft(s)[0])
  {
    if s != "" && IsSpace(s[0]) {
      TrimLeftStarts(s[1..]);
    }
  }

  lemma {:induction false} TrimRightEnds(s: string)
    ensures TrimRight(s) <= s && (TrimRight(s) != "" ==> !IsSpace(TrimRight(s)[|TrimRight(s)| - 1]))
  {
    if s != "" && IsSpace(s[|s| - 1]) {
      TrimRightEnds(s[..|s| - 1]);
    }
  }

  lemma TrimSpaceTrims(s: string)
    ensures TrimSpace(s) == "" || Trimmed(TrimSpace(s))
  {
    TrimLeftStarts(s);
    TrimRightEnds(TrimLeft(s));
  }

  lemma {:induction false} LowerAt(s: string, i: nat)
    requires i < |s|
    ensures Lower(s)[i] == LowerChar(s[i])
  {
    if i > 0 {
      LowerAt(s[1..], i - 1);
    }
  }

  lemma LowerTwice(s: string)
    ensures Lower(Lower(s)) == Lower(s)
  {
  }

  lemma LowerTrimmed(s: string)
    requires Trimmed(s)
    ensures Trimmed(Lower(s))
  {
    LowerAt(s, 0);
    LowerAt(s, |s| - 1);
  }

  /** A canonical id: trimmed, lower case, ending in "-0", and not the retired column. */
  ghost predicate Canonical(id: string) {
    Trimmed(id) && Lower(id) == id && |id| > 2 && EndsWith(id, "-0") && id != "doing-0" && id != "doing"
  }

  lemma CanonicalFixed(id: string)
    requires Canonical(id)
    ensures GetColumnID(id) == id
  {
  }

  lemma {:induction false} LowerConcat(s: string, t: string)
    ensures Lower(s + t) == Lower(s) + Lower(t)
  {
    if s == "" {
      assert s + t == t;
    } else {
      assert (s + t)[1..] == s[1..] + t;
      LowerConcat(s[1..], t);
    }
  }

  lemma SuffixedCanonical(lower: string)
    requires Trimmed(lower) && Lower(lower) == lower && lower != "doing"
    ensures Canonical(lower + "-0")
  {
    var id := lower + "-0";
    LowerConcat(lower, "-0");
    assert Lower("-0") == "-0";
    assert id[|lower|..] == "-0";
    assert id[..|lower|] == lower;
    assert "doing-0"[..5] == "doing";
  }

  ghost predicate NoUpper(s: string) {
    forall i :: 0 <= i < |s| ==> !('A' <= s[i] <= 'Z')
  }

  lemma LowerNoUpper(s: string)
    requires NoUpper(s)
    ensures Lower(s) == s
  {
  }

  lemma NameCanonical(name: string)
    requires Trimmed(name) && NoUpper(name) && name[0] != 'd'
    ensures Canonical(name + "-0")
  {
    LowerNoUpper(name);
    assert name != "doing" by {
      assert "doing"[0] == 'd';
    }
    SuffixedCanonical(name);
  }

  lemma TodoCanonical()
    ensures Canonical("todo" + "-0")
  {
    NameCanonical("todo");
  }

  lemma InProgressCanonical()
    ensures Canonical("inprogress" + "-0")
  {
    NameCanonical("inprogress");
  }

  lemma DoneCanonical()
    ensures Canonical("done" + "-0")
  {
    LowerNoUpper("done");
    SuffixedCanonical("done");
  }

  lemma OtherNamesCanonical(name: string)
    requires name == "review" || name == "backlog" || name == "cancelled" || name == "blocked" || name == "archived"
    ensures Canonical(name + "-0")
  {
    NameCanonical(name);
  }

  lemma TableCanonical(title: string)
    requires TitleToName(title).Some?
    ensures Canonical(TitleToName(title).value + "-0")
  {
    TodoCanonical();
    InProgressCanonical();
    DoneCanonical();
    var name := TitleToName(title).value;
    if name != "todo" && name != "inprogress" && name != "done" {
      OtherNamesCanonical(name);
    }
  }

  /** What is neither the retired column nor an id already. */
  lemma LookedUpCanonical(s: string)
    requires Trimmed(s) && Lower(s) != "doing"
    ensures Canonical((if TitleToName(Lower(s)).Some? then TitleToName(Lower(s)).value
      else if TitleToName(s).Some? then TitleToName(s).value else Lower(s)) + "-0")
  {
    if TitleToName(Lower(s)).Some? {
      TableCanonical(Lower(s));
    } else if TitleToName(s).Some? {
      TableCanonical(s);
    } else {
      LowerTwice(s);
      LowerTrimmed(s);
      SuffixedCanonical(Lower(s));
    }
  }

  /** Every column id is canonical, so resolving an id again changes nothing. */
  lemma ColumnIdIsCanonical(title: string)
    ensures Canonical(GetColumnID(title))
    ensures GetColumnID(GetColumnID(title)) == GetColumnID(title)
  {
    var s := TrimSpace(title);
    TrimSpaceTrims(title);
    TodoCanonical();
    InProgressCanonical();
    if s != "" {
      LowerTwice(s);
      LowerTrimmed(s);
      if Lower(s) != "doing" {
        LookedUpCanonical(s);
      }
    }
    CanonicalFixed(GetColumnID(title));
  }

  // ---------------------------------------------------------------- what the titles stand for

  /** A title's words: trimmed and in lower case. */
  function Words(title: string): string {
    Lower(TrimSpace(title))
  }

  lemma LowerIs(s: string, lower: string)
    requires |s| == |lower| && forall i :: 0 <= i < |s| ==> LowerChar(s[i]) == lower[i]
    ensures Lower(s) == lower
  {
    forall i | 0 <= i < |s|
      ensures Lower(s)[i] == lower[i]
    {
      LowerAt(s, i);
    }
  }

  /** The titles of the table that are not in lower case. */
  lemma LowerTitle(s: string)
    ensures s == "To Do" ==> Lower(s) == "to do"
    ensures s == "Todo" ==> Lower(s) == "todo"
    ensures s == "In Progress" ==> Lower(s) == "in progress"
    ensures s == "Done" ==> Lower(s) == "done"
    ensures s == "Review" ==> Lower(s) == "review"
    ensures s == "Backlog" ==> Lower(s) == "backlog"
    ensures s == "Cancelled" ==> Lower(s) == "cancelled"
  {
    if s == "To Do" {
      LowerIs(s, "to do");
    } else if s == "Todo" {
      LowerIs(s, "todo");
    } else if s == "In Progress" {
      LowerIs(s, "in progress");
    } else if s == "Done" {
      LowerIs(s, "done");
    } else if s == "Review" {
      LowerIs(s, "review");
    } else if s == "Backlog" {
      LowerIs(s, "backlog");
    } else if s == "Cancelled" {
      LowerIs(s, "cancelled");
    }
  }

  /** What the table says of words in lower case. */
  lemma TableOfWords(w: string)
    requires Lower(w) == w
    ensures w == "to do" ==> TitleToName(w) == Some("todo")
    ensures w == "in progress" || w == "in-progress" || w == "in_progress" ==> TitleToName(w) == Some("inprogress")
    ensures TitleToName(w) in {None, Some(w)}
      || w == "to do" || w == "in progress" || w == "in-progress" || w == "in_progress"
  {
    LowerTitle(w);
  }

  lemma LowerKeys(s: string)
    requires s != "Backlog" && s != "Cancelled"
    requires s != "To Do" && s != "Todo" && s != "In Progress" && s != "Done" && s != "Review"
    ensures TitleToName(s).Some? ==> Lower(s) == s
  {
    if TitleToName(s).Some? {
      LowerNoUpper(s);
    }
  }

  /** The table's other titles add nothing to it. */
  lemma TableOfTitles(s: string)
    ensures TitleToName(Lower(s)) == None ==> TitleToName(s) in {None, Some(Lower(s))}
  {
    LowerTitle(s);
    if s == "Backlog" || s == "Cancelled" {
    } else if s == "To Do" || s == "Todo" || s == "In Progress" || s == "Done" || s == "Review" {
      assert TitleToName(Lower(s)).Some?;
    } else {
      LowerKeys(s);
    }
  }

  /** Which column any title stands for depends on its words only: the empty title and one more
      spelling stand for the column "todo-0", five spellings for "inprogress-0", an id stands for
      itself, and all other words get the suffix. */
  lemma ColumnOfWords(title: string)
    ensures var w := Words(title);
      GetColumnID(title) ==
        if w == "" || w == "to do" then "todo-0"
        else if w == "in progress" || w == "in-progress" || w == "in_progress" || w == "doing" || w == "doing-0"
        then "inprogress-0"
        else if |w| > 2 && EndsWith(w, "-0") then w
        else w + "-0"
  {
    var s := TrimSpace(title);
    LowerTwice(s);
    TableOfWords(Lower(s));
    TableOfTitles(s);
  }

  // ---------------------------------------------------------------- statuses

  /** A requested status; anything outside the six valid ones is Other. */
  datatype Status = Backlog | Todo | InProgress | Review | Done | Cancelled | Other(name: string)

  function StatusToColumnID(status: Status): string {
    match status
    case Backlog => "backlog-0"
    case Todo => "todo-0"
    case InProgress => "inprogress-0"
    case Review => "review-0"
    case Done => "done-0"
    case Cancelled => "cancelled-0"
    case Other(_) => ""
  }

  function ColumnIDToStatus(column: string): Status {
    if column == "backlog-0" then Backlog
    else if column == "todo-0" then Todo
    else if column == "inprogress-0" then InProgress
    else if column == "review-0" then Review
    else if column == "done-0" then Done
    else if column == "cancelled-0" then Cancelled
    else Todo
  }

  /** The columns of the statuses; every other column counts as Todo, and no other status has one. */
  lemma StatusColumns()
    ensures StatusToColumnID(Backlog) == "backlog-0" && ColumnIDToStatus("backlog-0") == Backlog
    ensures StatusToColumnID(Todo) == "todo-0" && ColumnIDToStatus("todo-0") == Todo
    ensures StatusToColumnID(InProgress) == "inprogress-0" && ColumnIDToStatus("inprogress-0") == InProgress
    ensures StatusToColumnID(Review) == "review-0" && ColumnIDToStatus("review-0") == Review
    ensures StatusToColumnID(Done) == "done-0" && ColumnIDToStatus("done-0") == Done
    ensures StatusToColumnID(Cancelled) == "cancelled-0" && ColumnIDToStatus("cancelled-0") == Cancelled
    ensures forall status: Status :: status.Other? <==> StatusToColumnID(status) == ""
    ensures forall c: string :: ColumnIDToStatus(c) != Todo ==> c in {
      "backlog-0", "inprogress-0", "review-0", "done-0", "cancelled-0"}
  {
  }

  /** Whatever its spacing and case, a title with the words of a status stands for the column of
      that status. */
  lemma StatusOfWords(title: string, w: string)
    requires w == Words(title)
    ensures w == "backlog" ==> GetColumnID(title) == "backlog-0"
    ensures w == "" || w == "todo" || w == "to do" ==> GetColumnID(title) == "todo-0"
    ensures w == "inprogress" ==> GetColumnID(title) == "inprogress-0"
    ensures w == "review" ==> GetColumnID(title) == "review-0"
    ensures w == "done" ==> GetColumnID(title) == "done-0"
    ensures w == "cancelled" ==> GetColumnID(title) == "cancelled-0"
  {
    ColumnOfWords(title);
  }

  /** The other spellings of "in progress", the retired column, and two columns of no status. */
  lemma OtherWords(title: string, w: string)
    requires w == Words(title)
    ensures (w == "in progress" || w == "in-progress" || w == "in_progress" ==> GetColumnID(title) == "inprogress-0")
    ensures (w == "doing" || w == "doing-0" ==> GetColumnID(title) == "inprogress-0")
    ensures w == "blocked" ==> GetColumnID(title) == "blocked-0"
    ensures w == "archived" ==> GetColumnID(title) == "archived-0"
  {
    ColumnOfWords(title);
  }

  /** White space around a title does not count. */
  lemma SpaceAround(title: string, c: char)
    requires c == ' ' || c == '\t' || c == '\n' || c == '\r' || c == '\U{000b}' || c == '\U{000c}'
    ensures GetColumnID([c] + title) == GetColumnID(title) == GetColumnID(title + [c])
  {
    assert ([c] + title)[1..] == title;
    TrimLeftBefore(title, c);
    assert (TrimLeft(title) + [c])[..|TrimLeft(title)|] == TrimLeft(title);
  }

  lemma {:induction false} TrimLeftBefore(s: string, c: char)
    requires IsSpace(c)
    ensures TrimLeft(s + [c]) == if TrimLeft(s) == "" then "" else TrimLeft(s) + [c]
  {
    if s == "" {
      assert s + [c] == [c];
    } else {
      assert (s + [c])[1..] == s[1..] + [c];
      if IsSpace(s[0]) {
        TrimLeftBefore(s[1..], c);
      }
    }
  }

  lemma TrimmedStays(s: string)
    requires Trimmed(s)
    ensures TrimSpace(s) == s
  {
  }

  /** The titles of the default boards stand for the columns of the six statuses. */
  lemma DefaultTitle(title: string)
    ensures title == "Backlog" ==> GetColumnID(title) == "backlog-0"
    ensures title == "To Do" ==> GetColumnID(title) == "todo-0"
    ensures title == "In Progress" ==> GetColumnID(title) == "inprogress-0"
    ensures title == "Review" ==> GetColumnID(title) == "review-0"
    ensures title == "Done" ==> GetColumnID(title) == "done-0"
    ensures title == "Cancelled" ==> GetColumnID(title) == "cancelled-0"
  {
    if title == "Backlog" || title == "To Do" || title == "In Progress"
      || title == "Review" || title == "Done" || title == "Cancelled" {
      TrimmedStays(title);
      LowerTitle(title);
      StatusOfWords(title, Words(title));
      OtherWords(title, Words(title));
    }
  }

  /** A valid status survives the way to its column and back. */
  lemma StatusRoundTrip(status: Status)
    ensures ColumnIDToStatus(StatusToColumnID(status)) == if status.Other? then Todo else status
  {
  }
}
