/** The history kept at the top of the live-help combo box: the most recently
    looked-up keywords, newest first, separated from the full keyword list
    below them by a separator row. */
module HelpHistory {

  const MaxHistoryCount: int := 10

  datatype Entry = Separator | Item(text: string)

  /** The combo's rows and how many of the first rows are history. */
  datatype Combo = Combo(items: seq<Entry>, historySize: int)

  /** The history rows are the first `historySize` rows, all keywords, and
      the separator follows them once there is any history. */
  predicate Valid(c: Combo)
  {
    0 <= c.historySize &&
    (c.historySize > 0 ==>
       c.historySize < |c.items| && c.items[c.historySize] == Separator &&
       forall j :: 0 <= j < c.historySize ==> c.items[j].Item?)
  }

  /** Selecting a row by its text and reading back the selected index: the
      first row labelled `s`, or -1 when there is none. */
  function FindLabel(items: seq<Entry>, s: string): (k: int)
    ensures -1 <= k < |items|
    ensures k >= 0 ==> items[k] == Item(s) && forall j :: 0 <= j < k ==> items[j] != Item(s)
    ensures k == -1 ==> forall j :: 0 <= j < |items| ==> items[j] != Item(s)
  {
    if items == [] then -1
    else if items[0] == Item(s) then 0
    else
      var k := FindLabel(items[1..], s);
      if k < 0 then -1 else k + 1
  }

  function RemoveAt(items: seq<Entry>, k: nat): (r: seq<Entry>)
    requires k < |items|
    ensures |r| == |items| - 1
    ensures forall j :: 0 <= j < k ==> r[j] == items[j]
    ensures forall j :: k <= j < |r| ==> r[j] == items[j + 1]
  {
    items[..k] + items[k + 1..]
  }

  /** The rows before `c.historySize` are keywords and the separator follows
      them. */
  predicate Separated(c: Combo)
  {
    0 <= c.historySize < |c.items| && c.items[c.historySize] == Separator &&
    forall j :: 0 <= j < c.historySize ==> c.items[j].Item?
  }

  predicate DistinctUpTo(items: seq<Entry>, n: int)
    requires n <= |items|
  {
    forall i, j :: 0 <= i < j < n ==> items[i] != items[j]
  }

  /** A separator is put on top of a combo that has no history yet. */
  function Opened(c: Combo): (r: Combo)
    requires Valid(c)
    ensures Separated(r) && r.historySize == c.historySize
    ensures forall j :: 0 <= j < r.historySize ==> r.items[j] == c.items[j]
  {
    if c.historySize == 0 then Combo([Separator] + c.items, 0) else c
  }

  /** Dropping the oldest history rows until at most nine are left. */
  function Trimmed(c: Combo): (r: Combo)
    requires Separated(c)
    ensures Separated(r)
    ensures r.historySize == if c.historySize > MaxHistoryCount - 1 then MaxHistoryCount - 1 else c.historySize
    ensures forall j :: 0 <= j < r.historySize ==> r.items[j] == c.items[j]
  {
    if c.historySize > MaxHistoryCount - 1 then
      Combo(c.items[..MaxHistoryCount - 1] + c.items[c.historySize..], MaxHistoryCount - 1)
    else c
  }

  /** Taking `help` out of the history when the look-up finds it there. */
  function Unlisted(c: Combo, help: string): (r: Combo)
    requires Separated(c)
    ensures Separated(r)
    ensures r.historySize == c.historySize || r.historySize == c.historySize - 1
  {
    var k := FindLabel(c.items, help);
    if 0 <= k < c.historySize then Combo(RemoveAt(c.items, k), c.historySize - 1) else c
  }

  /** Out of a history without repetitions, `help` is taken out entirely. */
  lemma UnlistedDistinct(c: Combo, help: string)
    requires Separated(c) && DistinctUpTo(c.items, c.historySize)
    ensures DistinctUpTo(Unlisted(c, help).items, Unlisted(c, help).historySize)
    ensures forall j :: 0 <= j < Unlisted(c, help).historySize ==> Unlisted(c, help).items[j] != Item(help)
  {
    var k := FindLabel(c.items, help);
    var r := Unlisted(c, help);
    if 0 <= k < c.historySize {
      assert r.items == RemoveAt(c.items, k);
      forall j | 0 <= j < r.historySize
        ensures r.items[j] != Item(help)
      {
        if j >= k {
          assert r.items[j] == c.items[j + 1];
        }
      }
      forall i, j | 0 <= i < j < r.historySize
        ensures r.items[i] != r.items[j]
      {
        var i', j' := if i < k then i else i + 1, if j < k then j else j + 1;
        assert r.items[i] == c.items[i'] && r.items[j] == c.items[j'];
      }
    } else {
      assert r == c;
    }
  }

  /** Recording a looked-up keyword: a separator goes in first if there is no
      history yet; the history is cut to nine rows; a keyword already in the
      history is taken out of its place; and the keyword goes on top. */
  function AddItem(c: Combo, help: string): (r: Combo)
    requires Valid(c)
    ensures Valid(r)
    ensures help == "" ==> r == c
    ensures help != "" ==> |r.items| > 0 && r.items[0] == Item(help) && 1 <= r.historySize <= MaxHistoryCount
  {
    if help == "" then c
    else
      var c3 := Unlisted(Trimmed(Opened(c)), help);
      Combo([Item(help)] + c3.items, c3.historySize + 1)
  }

  predicate DistinctHistory(c: Combo)
    requires Valid(c)
  {
    DistinctUpTo(c.items, c.historySize)
  }

  /** Opening and trimming keep a history without repetitions so. */
  lemma TrimmedOpenedDistinct(c: Combo)
    requires Valid(c) && DistinctHistory(c)
    ensures DistinctUpTo(Trimmed(Opened(c)).items, Trimmed(Opened(c)).historySize)
  {
    var c1 := Opened(c);
    var c2 := Trimmed(c1);
    assert forall j :: 0 <= j < c2.historySize ==> c2.items[j] == c.items[j];
  }

  /** A keyword absent from a history without repetitions can go on top. */
  lemma PushDistinct(c: Combo, help: string)
    requires Separated(c) && DistinctUpTo(c.items, c.historySize)
    requires forall j :: 0 <= j < c.historySize ==> c.items[j] != Item(help)
    ensures DistinctUpTo([Item(help)] + c.items, c.historySize + 1)
  {
    var items := [Item(help)] + c.items;
    forall i, j | 0 <= i < j < c.historySize + 1
      ensures items[i] != items[j]
    {
      assert items[j] == c.items[j - 1];
      if i > 0 {
        assert items[i] == c.items[i - 1];
      }
    }
  }

  /** A keyword never appears twice in the history. */
  lemma HistoryStaysDistinct(c: Combo, help: string)
    requires Valid(c) && DistinctHistory(c)
    ensures DistinctHistory(AddItem(c, help))
  {
    if help != "" {
      var c2 := Trimmed(Opened(c));
      TrimmedOpenedDistinct(c);
      var c3 := Unlisted(c2, help);
      UnlistedDistinct(c2, help);
      PushDistinct(c3, help);
      assert AddItem(c, help) == Combo([Item(help)] + c3.items, c3.historySize + 1);
    }
  }

  /** The first look-up opens the history: the keyword on top, then the separator. */
  lemma FirstLookupOpensHistory(c: Combo, help: string)
    requires Valid(c) && c.historySize == 0 && help != ""
    ensures AddItem(c, help) == Combo([Item(help), Separator] + c.items, 1)
  {
    var c1 := Opened(c);
    assert c1 == Combo([Separator] + c.items, 0);
    assert Trimmed(c1) == c1 && Unlisted(c1, help) == c1;
    assert [Item(help)] + c1.items == [Item(help), Separator] + c.items;
  }

  /** A keyword not yet in a history of fewer than ten rows is added on top. */
  lemma NewKeywordGrowsHistory(c: Combo, help: string)
    requires Valid(c) && 0 < c.historySize < MaxHistoryCount && help != ""
    requires forall j :: 0 <= j < c.historySize ==> c.items[j] != Item(help)
    ensures AddItem(c, help) == Combo([Item(help)] + c.items, c.historySize + 1)
  {
  }

  /** A keyword already in a history of fewer than ten rows moves to the top,
      and the history keeps its length. */
  lemma KnownKeywordMovesToTop(c: Combo, help: string, k: nat)
    requires Valid(c) && DistinctHistory(c) && c.historySize < MaxHistoryCount && help != ""
    requires k < c.historySize && c.items[k] == Item(help)
    ensures AddItem(c, help) == Combo([Item(help)] + RemoveAt(c.items, k), c.historySize)
  {
    FoundNoLaterThan(c.items, help, k);
  }

  /** The look-up finds a keyword at or before any row carrying it. */
  lemma FoundNoLaterThan(items: seq<Entry>, help: string, k: nat)
    requires k < |items| && items[k] == Item(help)
    ensures 0 <= FindLabel(items, help) <= k
  {
  }

  /** A new keyword on a full history pushes the oldest row out. */
  lemma FullHistoryDropsOldest(c: Combo, help: string)
    requires Valid(c) && c.historySize == MaxHistoryCount && help != ""
    requires forall j :: 0 <= j < MaxHistoryCount - 1 ==> c.items[j] != Item(help)
    ensures AddItem(c, help) ==
            Combo([Item(help)] + c.items[..MaxHistoryCount - 1] + c.items[MaxHistoryCount..], MaxHistoryCount)
  {
    var c2 := Trimmed(c);
    assert c2.historySize == MaxHistoryCount - 1;
    var k := FindLabel(c2.items, help);
    assert !(0 <= k < c2.historySize) by {
      assert forall j :: 0 <= j < c2.historySize ==> c2.items[j] == c.items[j];
    }
    assert Unlisted(c2, help) == c2;
  }

  /** Re-selecting one of the nine newest keywords on a full history still
      drops the oldest row first, so the history shrinks to nine rows. */
  lemma FullHistoryReselectShrinks(c: Combo, help: string, k: nat)
    requires Valid(c) && c.historySize == MaxHistoryCount && help != ""
    requires k < MaxHistoryCount - 1 && c.items[k] == Item(help)
    ensures AddItem(c, help).historySize == MaxHistoryCount - 1
  {
    var c2 := Trimmed(c);
    assert c2.items[k] == Item(help);
    FoundNoLaterThan(c2.items, help, k);
  }

  /** The live-help combo as the script editor core holds it. */
  class HelpCombo {
    var items: seq<Entry>
    var historySize: int
    var selected: int

    function State(): Combo
      reads this
    {
      Combo(items, historySize)
    }

    /** `keywords` is the full keyword list the combo is filled with. */
    constructor (keywords: seq<string>)
      ensures items == seq(|keywords|, i requires 0 <= i < |keywords| => Item(keywords[i]))
      ensures historySize == 0 && selected == -1
      ensures Valid(State())
    {
      items := seq(|keywords|, i requires 0 <= i < |keywords| => Item(keywords[i]));
      historySize := 0;
      selected := -1;
    }

    /** Records a looked-up keyword; nothing happens when the help floater
        (`helpOpen`) is not shown. */
    method AddHelpItemToHistory(help: string, helpOpen: bool)
      requires Valid(State())
      modifies this
      ensures Valid(State())
      ensures !helpOpen || help == "" ==> State() == old(State()) && selected == old(selected)
      ensures helpOpen && help != "" ==> State() == AddItem(old(State()), help) && selected == 0
    {
      if help == "" || !helpOpen {
        return;
      }
      OpenHistory();
      TrimHistory();
      Unlist(help);
      items := [Item(help)] + items;
      selected := 0;
      historySize := historySize + 1;
    }

    /** Puts the separator on top when there is no history yet. */
    method OpenHistory()
      requires Valid(State())
      modifies this
      ensures State() == Opened(old(State())) && selected == old(selected)
    {
      if historySize == 0 {
        items := [Separator] + items;
      }
    }

    /** Takes `help` out of the history if the look-up finds it there. */
    method Unlist(help: string)
      requires Separated(State())
      modifies this
      ensures State() == Unlisted(old(State()), help) && selected == old(selected)
    {
      var index := FindLabel(items, help);
      if index >= 0 {
        if index < historySize {
          items := RemoveAt(items, index);
          historySize := historySize - 1;
        }
      }
    }

    /** Removes the oldest history row while more than nine are kept. */
    method TrimHistory()
      requires Separated(State())
      modifies this
      ensures State() == Trimmed(old(State())) && selected == old(selected)
    {
      ghost var start, startSize := items, historySize;
      while historySize > MaxHistoryCount - 1
        invariant if startSize > MaxHistoryCount - 1
                  then MaxHistoryCount - 1 <= historySize <= startSize
                  else historySize == startSize
        invariant items == start[..historySize] + start[startSize..]
        invariant selected == old(selected)
        decreases historySize
      {
        items := RemoveAt(items, historySize - 1);
        historySize := historySize - 1;
      }
    }
  }
}
