/**
 * The question navigator of the web client (web/js/navigation.js): the
 * user's questions in the order they were asked, and the list that shows
 * them newest first, numbered, with long texts shortened.
 */
module WebNav {

  /** A question: the id of its message card and the text the user sent. */
  datatype Question = Question(id: string, content: string)

  /** One row of the navigator. */
  datatype NavItem = NavItem(id: string, number: nat, text: string, active: bool)

  const MaxNavText := 20

  /** A question text of more than 20 characters shows its first 20 and an ellipsis. */
  function ShortText(content: string): (r: string)
    ensures |content| <= MaxNavText ==> r == content
    ensures |content| > MaxNavText ==>
      |r| == MaxNavText + 1 && r[..MaxNavText] == content[..MaxNavText] && r[MaxNavText] == '…'
  {
    if |content| > MaxNavText then content[..MaxNavText] + "…" else content
  }

  /** The questions newest first, `[...userQuestions].reverse()`. */
  function Reversed(qs: seq<Question>): (r: seq<Question>)
    ensures |r| == |qs|
  {
    if |qs| == 0 then [] else [qs[|qs| - 1]] + Reversed(qs[..|qs| - 1])
  }

  /** Position k of the reversed list holds the k-th question counted from the newest. */
  lemma {:induction false} ReversedAt(qs: seq<Question>, k: nat)
    requires k < |qs|
    ensures Reversed(qs)[k] == qs[|qs| - 1 - k]
    decreases |qs|
  {
    if k > 0 {
      var init := qs[..|qs| - 1];
      ReversedAt(init, k - 1);
      assert Reversed(qs)[k] == Reversed(init)[k - 1];
    }
  }

  /** The row built for the question at `index` of the reversed list of `count` questions. */
  function Row(q: Question, index: nat, count: nat): NavItem
    requires index < count
  {
    NavItem(q.id, count - index, ShortText(q.content), index == 0)
  }

  /** The rows updateQuickNav builds: one per question of the reversed list, in that order. */
  function NavRows(qs: seq<Question>): (r: seq<NavItem>)
    ensures |r| == |qs|
  {
    var rev := Reversed(qs);
    seq(|qs|, k requires 0 <= k < |qs| => Row(rev[k], k, |qs|))
  }

  /**
   * The rows show the questions newest first: the row of question i sits
   * at position `length - 1 - i` and carries its id and its number i + 1,
   * and only the newest row is active.
   */
  lemma NavNewestFirst(qs: seq<Question>)
    ensures var items := NavRows(qs);
      (forall i :: 0 <= i < |qs| ==>
        items[|qs| - 1 - i].id == qs[i].id && items[|qs| - 1 - i].number == i + 1
        && items[|qs| - 1 - i].text == ShortText(qs[i].content))
      && (forall k :: 0 <= k < |items| ==> (items[k].active <==> k == 0))
  {
    var items := NavRows(qs);
    forall i | 0 <= i < |qs|
      ensures items[|qs| - 1 - i].id == qs[i].id && items[|qs| - 1 - i].number == i + 1
      ensures items[|qs| - 1 - i].text == ShortText(qs[i].content)
    {
      ReversedAt(qs, |qs| - 1 - i);
    }
  }

  /** Every row with its mark cleared. */
  function Deactivated(items: seq<NavItem>): (r: seq<NavItem>)
    ensures |r| == |items|
    ensures forall k :: 0 <= k < |r| ==> r[k] == items[k].(active := false)
  {
    seq(|items|, k requires 0 <= k < |items| => items[k].(active := false))
  }

  /**
   * Asking a question puts its row on top, numbered one more than the
   * rows before, and active; the earlier rows move down one place
   * unchanged except that none of them is active any more.
   */
  lemma NavAdd(qs: seq<Question>, q: Question)
    ensures NavRows(qs + [q]) == [Row(q, 0, |qs| + 1)] + Deactivated(NavRows(qs))
  {
    var qs' := qs + [q];
    assert qs'[..|qs'| - 1] == qs;
    assert Reversed(qs') == [q] + Reversed(qs);
    var lhs := NavRows(qs');
    var rhs := [Row(q, 0, |qs| + 1)] + Deactivated(NavRows(qs));
    forall k | 0 <= k < |lhs| ensures lhs[k] == rhs[k] {
      if k > 0 {
        assert Reversed(qs')[k] == Reversed(qs)[k - 1];
      }
    }
  }

  /** What the navigator shows: hidden, or shown with its rows. */
  datatype NavView = NavView(shown: bool, items: seq<NavItem>)

  /**
   * updateQuickNav: with no questions the navigator is hidden and its old
   * rows stay in place; otherwise it is shown with the rows rebuilt.
   */
  function QuickNav(v: NavView, qs: seq<Question>): (r: NavView)
    ensures r.shown <==> |qs| > 0
    ensures |qs| == 0 ==> r.items == v.items
  {
    if |qs| == 0 then v.(shown := false) else NavView(true, NavRows(qs))
  }

  /** updateQuickNavHighlight marks exactly the rows with the given id. */
  function Highlighted(items: seq<NavItem>, id: string): (r: seq<NavItem>)
    ensures |r| == |items|
    ensures forall k :: 0 <= k < |r| ==> r[k] == items[k].(active := items[k].id == id)
  {
    if |items| == 0 then []
    else Highlighted(items[..|items| - 1], id) + [items[|items| - 1].(active := items[|items| - 1].id == id)]
  }

  /** A highlight changes only the marks, and highlighting twice is highlighting once. */
  lemma HighlightOnlyMarks(items: seq<NavItem>, id: string, other: string)
    ensures forall k :: 0 <= k < |items| ==>
      Highlighted(items, id)[k].(active := false) == items[k].(active := false)
    ensures Highlighted(Highlighted(items, other), id) == Highlighted(items, id)
  {
  }
}
