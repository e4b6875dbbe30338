/** The two result shapes of the live queries: one row per purchase type
    (`GROUP BY PurchaseType ORDER BY PurchaseType`), and the expense report
    of `GROUPING SETS ((AccountGroup, Account, AcctName), (AccountGroup), ())`
    with its Detail, Subtotal and Grand Total lines in the order the query
    sorts them. */
module LiveReport {
  import opened Basics
  import opened StringOrder
  import opened LiveWindows
  import opened LiveTally

  /** The keys of the lines, in line order. */
  function Keys(lines: seq<LiveLine>): (r: seq<string>)
    ensures forall k :: k in r <==> exists l :: l in lines && l.key == k
    decreases |lines|
  {
    if |lines| == 0 then []
    else
      assert forall l :: l in lines <==> l == lines[0] || l in lines[1..];
      [lines[0].key] + Keys(lines[1..])
  }

  // ---------------------------------------------------------------------
  // One row per purchase type

  datatype PurchaseRow = PurchaseRow(purchaseType: string, figures: Figures)

  function PurchaseRows(lines: seq<LiveLine>, w: Windows, types: seq<string>): (r: seq<PurchaseRow>)
    ensures |r| == |types|
    ensures forall i :: 0 <= i < |r| ==>
      r[i] == PurchaseRow(types[i], FiguresOf(lines, w, Is(false, types[i])))
    decreases |types|
  {
    if |types| == 0 then []
    else [PurchaseRow(types[0], FiguresOf(lines, w, Is(false, types[0])))] + PurchaseRows(lines, w, types[1..])
  }

  /** A live raw-material result: one row per purchase type present among the
      lines, ascending by type, each aggregating exactly that type's lines. */
  function PurchaseSummary(lines: seq<LiveLine>, w: Windows): (r: seq<PurchaseRow>)
    ensures forall i, j :: 0 <= i < j < |r| ==> Less(r[i].purchaseType, r[j].purchaseType)
    ensures forall t :: (exists i :: 0 <= i < |r| && r[i].purchaseType == t) <==> t in Keys(lines)
    ensures forall i :: 0 <= i < |r| ==>
      r[i].figures == FiguresOf(lines, w, Is(false, r[i].purchaseType))
  {
    var types := SortedDistinct(Keys(lines));
    var r := PurchaseRows(lines, w, types);
    assert forall t :: (exists i :: 0 <= i < |r| && r[i].purchaseType == t) <==> t in types by {
      forall t | t in types ensures exists i :: 0 <= i < |r| && r[i].purchaseType == t {
        var i :| 0 <= i < |types| && types[i] == t;
        assert r[i].purchaseType == t;
      }
    }
    r
  }

  function RowsTotal(rows: seq<PurchaseRow>): Figures
    decreases |rows|
  {
    if |rows| == 0 then NoFigures else Plus(rows[0].figures, RowsTotal(rows[1..]))
  }

  lemma {:induction false} PurchaseRowsTotal(lines: seq<LiveLine>, w: Windows, types: seq<string>)
    ensures RowsTotal(PurchaseRows(lines, w, types)) == FiguresOver(lines, w, false, types)
    decreases |types|
  {
    if |types| > 0 {
      PurchaseRowsTotal(lines, w, types[1..]);
      assert PurchaseRows(lines, w, types)[1..] == PurchaseRows(lines, w, types[1..]);
    }
  }

  lemma AscendingDistinct(xs: seq<string>)
    requires StrictlyAscending(xs)
    ensures Distinct(xs)
  {
    forall i, j | 0 <= i < j < |xs| ensures xs[i] != xs[j] {
      AscendingIsDistinct(xs, i, j);
    }
  }

  /** The purchase-type rows add up to the figures of all lines: every line
      is counted in exactly one row. */
  lemma PurchaseSummaryTotal(lines: seq<LiveLine>, w: Windows)
    ensures RowsTotal(PurchaseSummary(lines, w)) == FiguresOf(lines, w, All)
  {
    var types := SortedDistinct(Keys(lines));
    PurchaseRowsTotal(lines, w, types);
    AscendingDistinct(types);
    FiguresCover(lines, w, false, types);
  }

  // ---------------------------------------------------------------------
  // The GROUPING SETS expense report

  datatype LineType = Detail | Subtotal | GrandTotal

  /** One output line; the columns a grouping set rolls up are NULL. */
  datatype ReportLine = ReportLine(
    lineType: LineType,
    group: Option<string>,
    account: Option<string>,
    accountName: Option<string>,
    figures: Figures)

  function DetailLine(lines: seq<LiveLine>, w: Windows, chart: map<string, string>, a: string): ReportLine {
    ReportLine(Detail, Some(AccountGroup(a)), Some(a), if a in chart then Some(chart[a]) else None,
               FiguresOf(lines, w, Is(false, a)))
  }

  function SubtotalLine(lines: seq<LiveLine>, w: Windows, g: string): ReportLine {
    ReportLine(Subtotal, Some(g), None, None, FiguresOf(lines, w, Is(true, g)))
  }

  /** The accounts of one group, keeping their order. */
  function InGroup(accounts: seq<string>, g: string): (r: seq<string>)
    ensures forall a :: a in r <==> a in accounts && AccountGroup(a) == g
    ensures StrictlyAscending(accounts) ==> StrictlyAscending(r)
    decreases |accounts|
  {
    if |accounts| == 0 then []
    else
      var rest := InGroup(accounts[1..], g);
      assert forall a :: a in accounts <==> a == accounts[0] || a in accounts[1..];
      if AccountGroup(accounts[0]) == g then
        assert StrictlyAscending(accounts) ==> forall a :: a in rest ==> Less(accounts[0], a) by {
          if StrictlyAscending(accounts) {
            forall a | a in rest ensures Less(accounts[0], a) {
              var k :| 0 <= k < |accounts[1..]| && accounts[1..][k] == a;
              assert accounts[k + 1] == a;
            }
          }
        }
        [accounts[0]] + rest
      else rest
  }

  function Details(lines: seq<LiveLine>, w: Windows, chart: map<string, string>, accts: seq<string>): (r: seq<ReportLine>)
    ensures |r| == |accts|
    ensures forall i :: 0 <= i < |r| ==> r[i] == DetailLine(lines, w, chart, accts[i])
    decreases |accts|
  {
    if |accts| == 0 then []
    else [DetailLine(lines, w, chart, accts[0])] + Details(lines, w, chart, accts[1..])
  }

  /** One group's Detail lines followed by its Subtotal. */
  function Block(lines: seq<LiveLine>, w: Windows, chart: map<string, string>, accounts: seq<string>, g: string): seq<ReportLine> {
    Details(lines, w, chart, InGroup(accounts, g)) + [SubtotalLine(lines, w, g)]
  }

  function Blocks(lines: seq<LiveLine>, w: Windows, chart: map<string, string>, accounts: seq<string>, groups: seq<string>): seq<ReportLine>
    decreases |groups|
  {
    if |groups| == 0 then []
    else Block(lines, w, chart, accounts, groups[0]) + Blocks(lines, w, chart, accounts, groups[1..])
  }

  function GroupsOf(accounts: seq<string>): (r: seq<string>)
    ensures forall g :: g in r <==> exists a :: a in accounts && AccountGroup(a) == g
    decreases |accounts|
  {
    if |accounts| == 0 then []
    else
      assert forall a :: a in accounts <==> a == accounts[0] || a in accounts[1..];
      [AccountGroup(accounts[0])] + GroupsOf(accounts[1..])
  }

  /** The live expense report over the fetched lines. */
  function Report(lines: seq<LiveLine>, w: Windows, chart: map<string, string>): seq<ReportLine> {
    var accounts := SortedDistinct(Keys(lines));
    var groups := SortedDistinct(GroupsOf(accounts));
    Blocks(lines, w, chart, accounts, groups) + [ReportLine(GrandTotal, None, None, None, FiguresOf(lines, w, All))]
  }

  // ---------------------------------------------------------------------
  // Order

  function TypeRank(t: LineType): int {
    match t
    case Detail => 0
    case Subtotal => 1
    case GrandTotal => 2
  }

  /** The query's `ORDER BY`: lines with a group before the one without,
      then by group, then Detail before Subtotal, then by account. */
  predicate LineBefore(a: ReportLine, b: ReportLine) {
    if a.group.None? then false
    else if b.group.None? then true
    else
      Less(a.group.value, b.group.value)
      || (a.group == b.group
          && (TypeRank(a.lineType) < TypeRank(b.lineType)
              || (a.lineType == b.lineType && a.account.Some? && b.account.Some?
                  && Less(a.account.value, b.account.value))))
  }

  predicate Ordered(rows: seq<ReportLine>) {
    forall i, j :: 0 <= i < j < |rows| ==> LineBefore(rows[i], rows[j])
  }

  lemma OrderedConcat(a: seq<ReportLine>, b: seq<ReportLine>)
    requires Ordered(a) && Ordered(b)
    requires forall x, y :: x in a && y in b ==> LineBefore(x, y)
    ensures Ordered(a + b)
  {
    forall i, j | 0 <= i < j < |a + b| ensures LineBefore((a + b)[i], (a + b)[j]) {
      if j < |a| {
        assert (a + b)[i] == a[i] && (a + b)[j] == a[j];
      } else if i >= |a| {
        assert (a + b)[i] == b[i - |a|] && (a + b)[j] == b[j - |a|];
      } else {
        assert (a + b)[i] in a && (a + b)[j] in b;
      }
    }
  }

  lemma DetailsOrdered(lines: seq<LiveLine>, w: Windows, chart: map<string, string>, accts: seq<string>, g: string)
    requires StrictlyAscending(accts)
    requires forall a :: a in accts ==> AccountGroup(a) == g
    ensures Ordered(Details(lines, w, chart, accts))
  {
    var d := Details(lines, w, chart, accts);
    forall i, j | 0 <= i < j < |d| ensures LineBefore(d[i], d[j]) {
      assert d[i] == DetailLine(lines, w, chart, accts[i]);
      assert d[j] == DetailLine(lines, w, chart, accts[j]);
      assert accts[i] in accts && accts[j] in accts;
      assert Less(accts[i], accts[j]);
    }
  }

  /** The lines of one block all carry its group, and are in order. */
  lemma BlockFacts(lines: seq<LiveLine>, w: Windows, chart: map<string, string>, accounts: seq<string>, g: string)
    ensures forall x :: x in Block(lines, w, chart, accounts, g) ==> x.group == Some(g) && x.lineType != GrandTotal
    ensures StrictlyAscending(accounts) ==> Ordered(Block(lines, w, chart, accounts, g))
  {
    var accts := InGroup(accounts, g);
    var d := Details(lines, w, chart, accts);
    var s := [SubtotalLine(lines, w, g)];
    forall x | x in d ensures x.group == Some(g) && x.lineType == Detail {
      var i :| 0 <= i < |d| && d[i] == x;
    }
    if StrictlyAscending(accounts) {
      DetailsOrdered(lines, w, chart, accts, g);
      OrderedConcat(d, s);
    }
  }

  lemma {:induction false} BlocksGroups(lines: seq<LiveLine>, w: Windows, chart: map<string, string>, accounts: seq<string>, groups: seq<string>)
    ensures forall x :: x in Blocks(lines, w, chart, accounts, groups) ==>
      x.group.Some? && x.group.value in groups && x.lineType != GrandTotal
    decreases |groups|
  {
    if |groups| > 0 {
      BlockFacts(lines, w, chart, accounts, groups[0]);
      BlocksGroups(lines, w, chart, accounts, groups[1..]);
      assert forall v :: v in groups[1..] ==> v in groups;
    }
  }

  /** Detail lines of the blocks are the detail lines of their account, and
      Subtotal lines the subtotal of their group. */
  lemma {:induction false} BlocksShape(lines: seq<LiveLine>, w: Windows, chart: map<string, string>, accounts: seq<string>, groups: seq<string>)
    ensures forall x :: x in Blocks(lines, w, chart, accounts, groups) ==>
      && (x.lineType == Detail ==>
            x.account.Some? && x.account.value in accounts
            && x == DetailLine(lines, w, chart, x.account.value))
      && (x.lineType == Subtotal ==> x.group.Some? && x == SubtotalLine(lines, w, x.group.value))
    decreases |groups|
  {
    if |groups| > 0 {
      BlocksShape(lines, w, chart, accounts, groups[1..]);
      var d := Details(lines, w, chart, InGroup(accounts, groups[0]));
      forall x | x in d
        ensures x.lineType == Detail && x.account.Some? && x.account.value in accounts
             && x == DetailLine(lines, w, chart, x.account.value)
      {
        var i :| 0 <= i < |d| && d[i] == x;
      }
    }
  }

  lemma {:induction false} BlocksOrdered(lines: seq<LiveLine>, w: Windows, chart: map<string, string>, accounts: seq<string>, groups: seq<string>)
    requires StrictlyAscending(accounts) && StrictlyAscending(groups)
    ensures Ordered(Blocks(lines, w, chart, accounts, groups))
    decreases |groups|
  {
    if |groups| > 0 {
      var g := groups[0];
      var blk := Block(lines, w, chart, accounts, g);
      var rest := Blocks(lines, w, chart, accounts, groups[1..]);
      BlockFacts(lines, w, chart, accounts, g);
      assert StrictlyAscending(groups[1..]);
      BlocksOrdered(lines, w, chart, accounts, groups[1..]);
      BlocksGroups(lines, w, chart, accounts, groups[1..]);
      forall x, y | x in blk && y in rest ensures LineBefore(x, y) {
        var k :| 0 <= k < |groups[1..]| && groups[1..][k] == y.group.value;
        assert groups[k + 1] == y.group.value;
      }
      OrderedConcat(blk, rest);
    }
  }

  /** The report is in the query's order: groups ascending, each group's
      details by account before its subtotal, the grand total last. */
  lemma ReportOrdered(lines: seq<LiveLine>, w: Windows, chart: map<string, string>)
    ensures Ordered(Report(lines, w, chart))
  {
    var accounts := SortedDistinct(Keys(lines));
    var groups := SortedDistinct(GroupsOf(accounts));
    BlocksOrdered(lines, w, chart, accounts, groups);
    BlocksGroups(lines, w, chart, accounts, groups);
    OrderedConcat(Blocks(lines, w, chart, accounts, groups), [ReportLine(GrandTotal, None, None, None, FiguresOf(lines, w, All))]);
  }

  // ---------------------------------------------------------------------
  // Sums over report lines

  /** The figures of the Detail lines, only those of group `g` when given. */
  function DetailSum(rows: seq<ReportLine>, g: Option<string>): Figures
    decreases |rows|
  {
    if |rows| == 0 then NoFigures
    else Plus(if rows[0].lineType == Detail && (g.None? || rows[0].group == g) then rows[0].figures else NoFigures,
              DetailSum(rows[1..], g))
  }

  /** The figures of the Subtotal lines. */
  function SubtotalSum(rows: seq<ReportLine>): Figures
    decreases |rows|
  {
    if |rows| == 0 then NoFigures
    else Plus(if rows[0].lineType == Subtotal then rows[0].figures else NoFigures, SubtotalSum(rows[1..]))
  }

  lemma PlusIdentity(a: Figures)
    ensures Plus(NoFigures, a) == a && Plus(a, NoFigures) == a
  {
  }

  lemma PlusAssociative(a: Figures, b: Figures, c: Figures)
    ensures Plus(Plus(a, b), c) == Plus(a, Plus(b, c))
  {
  }

  lemma {:induction false} DetailSumConcat(a: seq<ReportLine>, b: seq<ReportLine>, g: Option<string>)
    ensures DetailSum(a + b, g) == Plus(DetailSum(a, g), DetailSum(b, g))
    decreases |a|
  {
    if |a| == 0 {
      assert a + b == b;
      PlusIdentity(DetailSum(b, g));
    } else {
      assert (a + b)[0] == a[0];
      assert (a + b)[1..] == a[1..] + b;
      DetailSumConcat(a[1..], b, g);
      var x := if a[0].lineType == Detail && (g.None? || a[0].group == g) then a[0].figures else NoFigures;
      PlusAssociative(x, DetailSum(a[1..], g), DetailSum(b, g));
    }
  }

  lemma {:induction false} SubtotalSumConcat(a: seq<ReportLine>, b: seq<ReportLine>)
    ensures SubtotalSum(a + b) == Plus(SubtotalSum(a), SubtotalSum(b))
    decreases |a|
  {
    if |a| == 0 {
      assert a + b == b;
      PlusIdentity(SubtotalSum(b));
    } else {
      assert (a + b)[0] == a[0];
      assert (a + b)[1..] == a[1..] + b;
      SubtotalSumConcat(a[1..], b);
      var x := if a[0].lineType == Subtotal then a[0].figures else NoFigures;
      PlusAssociative(x, SubtotalSum(a[1..]), SubtotalSum(b));
    }
  }

  /** Both sums of a concatenation split at the seam. */
  lemma SumsConcat(a: seq<ReportLine>, b: seq<ReportLine>, g: Option<string>)
    ensures DetailSum(a + b, g) == Plus(DetailSum(a, g), DetailSum(b, g))
    ensures SubtotalSum(a + b) == Plus(SubtotalSum(a), SubtotalSum(b))
  {
    DetailSumConcat(a, b, g);
    SubtotalSumConcat(a, b);
  }

  /** Lines of other groups add nothing to a group's detail sum. */
  lemma {:induction false} DetailSumOfOthers(rows: seq<ReportLine>, g: string)
    requires forall x :: x in rows ==> x.group != Some(g)
    ensures DetailSum(rows, Some(g)) == NoFigures
    decreases |rows|
  {
    if |rows| > 0 {
      assert rows[0] in rows;
      DetailSumOfOthers(rows[1..], g);
    }
  }

  /** Detail lines of one group, summed for that group, add up their
      accounts' figures. */
  lemma {:induction false} DetailsGroupSum(lines: seq<LiveLine>, w: Windows, chart: map<string, string>, accts: seq<string>, g: string)
    requires forall a :: a in accts ==> AccountGroup(a) == g
    ensures DetailSum(Details(lines, w, chart, accts), Some(g)) == FiguresOver(lines, w, false, accts)
    decreases |accts|
  {
    if |accts| > 0 {
      var d := Details(lines, w, chart, accts);
      assert d[1..] == Details(lines, w, chart, accts[1..]);
      assert accts[0] in accts;
      DetailsGroupSum(lines, w, chart, accts[1..], g);
    }
  }

  /** Detail lines, summed for no group, add up their accounts' figures. */
  lemma {:induction false} DetailsAllSum(lines: seq<LiveLine>, w: Windows, chart: map<string, string>, accts: seq<string>)
    ensures DetailSum(Details(lines, w, chart, accts), None) == FiguresOver(lines, w, false, accts)
    decreases |accts|
  {
    if |accts| > 0 {
      var d := Details(lines, w, chart, accts);
      assert d[1..] == Details(lines, w, chart, accts[1..]);
      DetailsAllSum(lines, w, chart, accts[1..]);
    }
  }

  /** Detail lines hold no Subtotal. */
  lemma {:induction false} DetailsSubtotal(lines: seq<LiveLine>, w: Windows, chart: map<string, string>, accts: seq<string>)
    ensures SubtotalSum(Details(lines, w, chart, accts)) == NoFigures
    decreases |accts|
  {
    if |accts| > 0 {
      var d := Details(lines, w, chart, accts);
      assert d[1..] == Details(lines, w, chart, accts[1..]);
      DetailsSubtotal(lines, w, chart, accts[1..]);
    }
  }

  lemma DetailsSums(lines: seq<LiveLine>, w: Windows, chart: map<string, string>, accts: seq<string>, g: string)
    requires forall a :: a in accts ==> AccountGroup(a) == g
    ensures DetailSum(Details(lines, w, chart, accts), Some(g)) == FiguresOver(lines, w, false, accts)
    ensures DetailSum(Details(lines, w, chart, accts), None) == FiguresOver(lines, w, false, accts)
    ensures SubtotalSum(Details(lines, w, chart, accts)) == NoFigures
  {
    DetailsGroupSum(lines, w, chart, accts, g);
    DetailsAllSum(lines, w, chart, accts);
    DetailsSubtotal(lines, w, chart, accts);
  }

  /** A group's accounts, added up, give the group's figures. */
  lemma GroupFigures(lines: seq<LiveLine>, w: Windows, accounts: seq<string>, g: string)
    requires StrictlyAscending(accounts)
    requires forall l :: l in lines ==> l.key in accounts
    ensures FiguresOver(lines, w, false, InGroup(accounts, g)) == FiguresOf(lines, w, Is(true, g))
  {
    AscendingDistinct(InGroup(accounts, g));
    FiguresPartition(lines, w, false, InGroup(accounts, g));
    SelectorsAgree(lines, w, Among(false, InGroup(accounts, g)), Is(true, g));
  }

  lemma SingleSums(x: ReportLine, h: Option<string>)
    ensures DetailSum([x], h) == if x.lineType == Detail && (h.None? || x.group == h) then x.figures else NoFigures
    ensures SubtotalSum([x]) == if x.lineType == Subtotal then x.figures else NoFigures
  {
    assert [x][1..] == [];
    PlusIdentity(x.figures);
    PlusIdentity(NoFigures);
  }

  /** A block's subtotal gives its group's figures. */
  lemma BlockSubtotal(lines: seq<LiveLine>, w: Windows, chart: map<string, string>, accounts: seq<string>, g: string)
    ensures SubtotalSum(Block(lines, w, chart, accounts, g)) == FiguresOf(lines, w, Is(true, g))
  {
    var accts := InGroup(accounts, g);
    var d := Details(lines, w, chart, accts);
    var x := SubtotalLine(lines, w, g);
    DetailsSums(lines, w, chart, accts, g);
    SubtotalSumConcat(d, [x]);
    SingleSums(x, None);
    PlusIdentity(x.figures);
  }

  /** A block's details, summed for no group or for their own group, give
      the group's figures. */
  lemma BlockOwnDetails(lines: seq<LiveLine>, w: Windows, chart: map<string, string>, accounts: seq<string>, g: string, h: Option<string>)
    requires StrictlyAscending(accounts)
    requires forall l :: l in lines ==> l.key in accounts
    requires h.None? || h == Some(g)
    ensures DetailSum(Details(lines, w, chart, InGroup(accounts, g)), h) == FiguresOf(lines, w, Is(true, g))
  {
    DetailsSums(lines, w, chart, InGroup(accounts, g), g);
    GroupFigures(lines, w, accounts, g);
  }

  /** A block's details add nothing to another group's sum. */
  lemma BlockOtherDetails(lines: seq<LiveLine>, w: Windows, chart: map<string, string>, accounts: seq<string>, g: string, h: string)
    requires h != g
    ensures DetailSum(Details(lines, w, chart, InGroup(accounts, g)), Some(h)) == NoFigures
  {
    var d := Details(lines, w, chart, InGroup(accounts, g));
    forall y | y in d ensures y.group != Some(h) {
      var i :| 0 <= i < |d| && d[i] == y;
    }
    DetailSumOfOthers(d, h);
  }

  /** The Subtotal line closing a block adds nothing to a Detail sum. */
  lemma BlockDetailSum(lines: seq<LiveLine>, w: Windows, chart: map<string, string>, accounts: seq<string>, g: string, h: Option<string>)
    ensures DetailSum(Block(lines, w, chart, accounts, g), h) == DetailSum(Details(lines, w, chart, InGroup(accounts, g)), h)
  {
    var d := Details(lines, w, chart, InGroup(accounts, g));
    var x := SubtotalLine(lines, w, g);
    DetailSumConcat(d, [x], h);
    SingleSums(x, h);
    PlusIdentity(DetailSum(d, h));
  }

  /** A block's details give its group's figures, and nothing to another
      group. */
  lemma BlockDetails(lines: seq<LiveLine>, w: Windows, chart: map<string, string>, accounts: seq<string>, g: string, h: Option<string>)
    requires StrictlyAscending(accounts)
    requires forall l :: l in lines ==> l.key in accounts
    ensures h.None? || h == Some(g) ==> DetailSum(Block(lines, w, chart, accounts, g), h) == FiguresOf(lines, w, Is(true, g))
    ensures h.Some? && h != Some(g) ==> DetailSum(Block(lines, w, chart, accounts, g), h) == NoFigures
  {
    BlockDetailSum(lines, w, chart, accounts, g, h);
    if h.Some? && h != Some(g) {
      BlockOtherDetails(lines, w, chart, accounts, g, h.value);
    } else {
      BlockOwnDetails(lines, w, chart, accounts, g, h);
    }
  }

  lemma {:induction false} BlocksSums(lines: seq<LiveLine>, w: Windows, chart: map<string, string>, accounts: seq<string>, groups: seq<string>)
    requires StrictlyAscending(accounts)
    requires forall l :: l in lines ==> l.key in accounts
    ensures DetailSum(Blocks(lines, w, chart, accounts, groups), None) == FiguresOver(lines, w, true, groups)
    ensures SubtotalSum(Blocks(lines, w, chart, accounts, groups)) == FiguresOver(lines, w, true, groups)
    decreases |groups|
  {
    if |groups| > 0 {
      BlockSubtotal(lines, w, chart, accounts, groups[0]);
      BlockDetails(lines, w, chart, accounts, groups[0], None);
      BlocksSums(lines, w, chart, accounts, groups[1..]);
      SumsConcat(Block(lines, w, chart, accounts, groups[0]), Blocks(lines, w, chart, accounts, groups[1..]), None);
    }
  }

  /** A group without a block gets nothing from the blocks. */
  lemma {:induction false} BlocksOtherGroup(lines: seq<LiveLine>, w: Windows, chart: map<string, string>, accounts: seq<string>, groups: seq<string>, g: string)
    requires StrictlyAscending(accounts)
    requires forall l :: l in lines ==> l.key in accounts
    requires g !in groups
    ensures DetailSum(Blocks(lines, w, chart, accounts, groups), Some(g)) == NoFigures
    decreases |groups|
  {
    if |groups| > 0 {
      var blk := Block(lines, w, chart, accounts, groups[0]);
      var rest := Blocks(lines, w, chart, accounts, groups[1..]);
      assert Blocks(lines, w, chart, accounts, groups) == blk + rest;
      DetailSumConcat(blk, rest, Some(g));
      assert groups[0] in groups;
      assert Some(g) != Some(groups[0]);
      BlockDetails(lines, w, chart, accounts, groups[0], Some(g));
      assert DetailSum(blk, Some(g)) == NoFigures;
      assert forall v :: v in groups[1..] ==> v in groups;
      BlocksOtherGroup(lines, w, chart, accounts, groups[1..], g);
      PlusIdentity(NoFigures);
    }
  }

  /** Within the blocks of distinct groups, a group's detail lines add up
      to that group's figures. */
  lemma {:induction false} BlocksGroupSum(lines: seq<LiveLine>, w: Windows, chart: map<string, string>, accounts: seq<string>, groups: seq<string>, g: string)
    requires StrictlyAscending(accounts) && Distinct(groups)
    requires forall l :: l in lines ==> l.key in accounts
    requires g in groups
    ensures DetailSum(Blocks(lines, w, chart, accounts, groups), Some(g)) == FiguresOf(lines, w, Is(true, g))
    decreases |groups|
  {
    var blk := Block(lines, w, chart, accounts, groups[0]);
    var rest := Blocks(lines, w, chart, accounts, groups[1..]);
    assert Blocks(lines, w, chart, accounts, groups) == blk + rest;
    DetailSumConcat(blk, rest, Some(g));
    BlockDetails(lines, w, chart, accounts, groups[0], Some(g));
    DistinctTail(groups);
    if g == groups[0] {
      BlocksOtherGroup(lines, w, chart, accounts, groups[1..], g);
      PlusIdentity(DetailSum(blk, Some(g)));
    } else {
      assert g in groups[1..];
      BlocksGroupSum(lines, w, chart, accounts, groups[1..], g);
      PlusIdentity(DetailSum(rest, Some(g)));
    }
  }

  predicate SubtotalsMatch(rows: seq<ReportLine>) {
    forall i :: 0 <= i < |rows| && rows[i].lineType == Subtotal ==>
      rows[i].group.Some? && rows[i].figures == DetailSum(rows, rows[i].group)
  }

  /** Appending a line that is not a Detail line keeps every subtotal equal
      to its group's detail sum. */
  lemma SubtotalsMatchAppend(b: seq<ReportLine>, x: ReportLine)
    requires SubtotalsMatch(b)
    requires x.lineType == GrandTotal
    ensures SubtotalsMatch(b + [x])
  {
    var r := b + [x];
    forall i | 0 <= i < |r| && r[i].lineType == Subtotal
      ensures r[i].group.Some? && r[i].figures == DetailSum(r, r[i].group)
    {
      assert r[i] == b[i];
      DetailSumConcat(b, [x], r[i].group);
      SingleSums(x, r[i].group);
      PlusIdentity(DetailSum(b, r[i].group));
    }
  }

  lemma BlocksSubtotalsMatch(lines: seq<LiveLine>, w: Windows, chart: map<string, string>, accounts: seq<string>, groups: seq<string>)
    requires StrictlyAscending(accounts) && Distinct(groups)
    requires forall l :: l in lines ==> l.key in accounts
    ensures SubtotalsMatch(Blocks(lines, w, chart, accounts, groups))
  {
    var b := Blocks(lines, w, chart, accounts, groups);
    BlocksShape(lines, w, chart, accounts, groups);
    BlocksGroups(lines, w, chart, accounts, groups);
    forall i | 0 <= i < |b| && b[i].lineType == Subtotal
      ensures b[i].group.Some? && b[i].figures == DetailSum(b, b[i].group)
    {
      assert b[i] in b;
      BlocksGroupSum(lines, w, chart, accounts, groups, b[i].group.value);
    }
  }

  /** Every Subtotal line carries the sum of the Detail lines of its group. */
  lemma ReportSubtotals(lines: seq<LiveLine>, w: Windows, chart: map<string, string>)
    ensures var r := Report(lines, w, chart);
      forall i :: 0 <= i < |r| && r[i].lineType == Subtotal ==>
        r[i].group.Some? && r[i].figures == DetailSum(r, r[i].group)
  {
    var accounts := SortedDistinct(Keys(lines));
    var groups := SortedDistinct(GroupsOf(accounts));
    forall l | l in lines ensures l.key in accounts {
      assert l.key in Keys(lines);
    }
    AscendingDistinct(groups);
    BlocksSubtotalsMatch(lines, w, chart, accounts, groups);
    SubtotalsMatchAppend(Blocks(lines, w, chart, accounts, groups), ReportLine(GrandTotal, None, None, None, FiguresOf(lines, w, All)));
    assert SubtotalsMatch(Report(lines, w, chart));
  }

  /** The groups of the report cover every line, so adding up the group
      figures gives the figures of all lines. */
  lemma GroupsCover(lines: seq<LiveLine>, w: Windows)
    ensures var groups := SortedDistinct(GroupsOf(SortedDistinct(Keys(lines))));
      FiguresOver(lines, w, true, groups) == FiguresOf(lines, w, All)
  {
    var accounts := SortedDistinct(Keys(lines));
    var groups := SortedDistinct(GroupsOf(accounts));
    forall l | l in lines ensures ClassOf(l, true) in groups {
      assert l.key in Keys(lines);
      assert AccountGroup(l.key) in GroupsOf(accounts);
    }
    AscendingDistinct(groups);
    FiguresCover(lines, w, true, groups);
  }

  /** Appending a Grand Total line that carries the blocks' detail sum
      and subtotal sum. */
  lemma GrandTotalAppend(b: seq<ReportLine>, x: ReportLine)
    requires x.lineType == GrandTotal
    requires forall y :: y in b ==> y.lineType != GrandTotal
    requires x.figures == DetailSum(b, None) && x.figures == SubtotalSum(b)
    ensures var r := b + [x];
      && r[|r| - 1].lineType == GrandTotal
      && (forall i :: 0 <= i < |r| - 1 ==> r[i].lineType != GrandTotal)
      && r[|r| - 1].figures == DetailSum(r, None)
      && r[|r| - 1].figures == SubtotalSum(r)
  {
    var r := b + [x];
    forall i | 0 <= i < |r| - 1 ensures r[i].lineType != GrandTotal {
      assert r[i] == b[i] && b[i] in b;
    }
    assert r[|r| - 1] == x;
    assert DetailSum(r, None) == x.figures by {
      DetailSumConcat(b, [x], None);
      SingleSums(x, None);
      PlusIdentity(x.figures);
    }
    assert SubtotalSum(r) == x.figures by {
      SubtotalSumConcat(b, [x]);
      SingleSums(x, None);
      PlusIdentity(x.figures);
    }
  }

  /** The report ends with its only Grand Total line, which carries the sum
      of all Detail lines and also the sum of all Subtotal lines. */
  lemma ReportGrandTotal(lines: seq<LiveLine>, w: Windows, chart: map<string, string>)
    ensures var r := Report(lines, w, chart);
      && |r| > 0 && r[|r| - 1].lineType == GrandTotal
      && (forall i :: 0 <= i < |r| - 1 ==> r[i].lineType != GrandTotal)
      && r[|r| - 1].figures == DetailSum(r, None)
      && r[|r| - 1].figures == SubtotalSum(r)
  {
    var accounts := SortedDistinct(Keys(lines));
    var groups := SortedDistinct(GroupsOf(accounts));
    var b := Blocks(lines, w, chart, accounts, groups);
    forall l | l in lines ensures l.key in accounts {
      assert l.key in Keys(lines);
    }
    BlocksGroups(lines, w, chart, accounts, groups);
    BlocksSums(lines, w, chart, accounts, groups);
    GroupsCover(lines, w);
    GrandTotalAppend(b, ReportLine(GrandTotal, None, None, None, FiguresOf(lines, w, All)));
  }

  lemma {:induction false} BlockInBlocks(lines: seq<LiveLine>, w: Windows, chart: map<string, string>, accounts: seq<string>, groups: seq<string>, k: int)
    requires 0 <= k < |groups|
    ensures forall x :: x in Block(lines, w, chart, accounts, groups[k]) ==> x in Blocks(lines, w, chart, accounts, groups)
    decreases |groups|
  {
    if k > 0 {
      BlockInBlocks(lines, w, chart, accounts, groups[1..], k - 1);
    }
  }

  /** Account `a` has a Detail line in `r`. */
  predicate HasDetail(r: seq<ReportLine>, a: string) {
    exists i :: 0 <= i < |r| && r[i].lineType == Detail && r[i].account == Some(a)
  }

  /** An account has a Detail line exactly when it is among the lines. */
  lemma ReportAccount(lines: seq<LiveLine>, w: Windows, chart: map<string, string>, a: string)
    ensures HasDetail(Report(lines, w, chart), a) <==> a in Keys(lines)
  {
    ReportDetails(lines, w, chart);
  }

  /** Each account among the lines has a Detail line, no other account has
      one, and no account has two. */
  lemma ReportDetails(lines: seq<LiveLine>, w: Windows, chart: map<string, string>)
    ensures var r := Report(lines, w, chart);
      && (forall a :: (exists i :: 0 <= i < |r| && r[i].lineType == Detail && r[i].account == Some(a))
                      <==> a in Keys(lines))
      && (forall i :: 0 <= i < |r| && r[i].lineType == Detail ==>
            r[i].account.Some? && r[i] == DetailLine(lines, w, chart, r[i].account.value))
      && (forall i, j :: 0 <= i < j < |r| && r[i].lineType == Detail && r[j].lineType == Detail ==>
            r[i].account != r[j].account)
  {
    var accounts := SortedDistinct(Keys(lines));
    var groups := SortedDistinct(GroupsOf(accounts));
    var b := Blocks(lines, w, chart, accounts, groups);
    var gt := [ReportLine(GrandTotal, None, None, None, FiguresOf(lines, w, All))];
    var r := b + gt;
    BlocksShape(lines, w, chart, accounts, groups);
    ReportOrdered(lines, w, chart);
    forall i | 0 <= i < |r| && r[i].lineType == Detail
      ensures r[i].account.Some? && r[i] == DetailLine(lines, w, chart, r[i].account.value)
      ensures r[i].account.value in Keys(lines)
    {
      assert i < |b| && r[i] == b[i] && b[i] in b;
    }
    forall a | a in Keys(lines)
      ensures exists i :: 0 <= i < |r| && r[i].lineType == Detail && r[i].account == Some(a)
    {
      var g := AccountGroup(a);
      assert g in GroupsOf(accounts);
      var k :| 0 <= k < |groups| && groups[k] == g;
      var accts := InGroup(accounts, g);
      var m :| 0 <= m < |accts| && accts[m] == a;
      var d := Details(lines, w, chart, accts);
      assert d[m] in Block(lines, w, chart, accounts, g);
      BlockInBlocks(lines, w, chart, accounts, groups, k);
      assert d[m] in r;
      var i :| 0 <= i < |r| && r[i] == d[m];
    }
    forall i, j | 0 <= i < j < |r| && r[i].lineType == Detail && r[j].lineType == Detail
      ensures r[i].account != r[j].account
    {
      assert LineBefore(r[i], r[j]);
      if r[i].account == r[j].account {
        LessIrreflexive(r[i].account.value);
        LessIrreflexive(r[i].group.value);
      }
    }
  }
}
