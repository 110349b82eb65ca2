/**
 Append-only revision chains. Resolutions of an authority and layer revisions of an identity are
 kept the same way: the row marked current is looked up, marked superseded, and a successor that
 points at it is added. A table holds its rows in the order they were added; a row's identifier is
 its position.
 */
module RevisionChains {
  import opened Options

  datatype Link = Link(owner: nat, number: nat, predecessor: Option<nat>, current: bool)

  function FirstCurrentFrom(links: seq<Link>, owner: nat, i: nat): (r: Option<nat>)
    requires i <= |links|
    ensures r.Some? ==> i <= r.value < |links| && links[r.value].owner == owner && links[r.value].current
    decreases |links| - i
  {
    if i == |links| then None
    else if links[i].owner == owner && links[i].current then Some(i)
    else FirstCurrentFrom(links, owner, i + 1)
  }

  /** The lookup of the current row. */
  function FirstCurrent(links: seq<Link>, owner: nat): (r: Option<nat>)
    ensures r.Some? ==> r.value < |links| && links[r.value].owner == owner && links[r.value].current
  {
    FirstCurrentFrom(links, owner, 0)
  }

  function Superseded(links: seq<Link>, row: Option<nat>): (r: seq<Link>)
    requires row.Some? ==> row.value < |links|
    ensures |r| == |links|
  {
    if row.Some? then links[row.value := links[row.value].(current := false)] else links
  }

  function NumberOf(links: seq<Link>, row: Option<nat>): nat
    requires row.Some? ==> row.value < |links|
  {
    if row.Some? then links[row.value].number else 0
  }

  /** What one write does to a chain table. */
  function Append(links: seq<Link>, owner: nat): seq<Link> {
    var row := FirstCurrent(links, owner);
    Superseded(links, row) + [Link(owner, NumberOf(links, row) + 1, row, true)]
  }

  // ---------------------------------------------------------------- reference definition

  /** How many of the first n rows belong to the owner. */
  function Rows(links: seq<Link>, owner: nat, n: nat): nat
    requires n <= |links|
  {
    if n == 0 then 0 else Rows(links, owner, n - 1) + (if links[n - 1].owner == owner then 1 else 0)
  }

  /** The owner's last row among the first n. */
  function LastRow(links: seq<Link>, owner: nat, n: nat): (r: Option<nat>)
    requires n <= |links|
    ensures r.Some? ==> r.value < n
  {
    if n == 0 then None else if links[n - 1].owner == owner then Some(n - 1) else LastRow(links, owner, n - 1)
  }

  /** A row is numbered in order of arrival, points at its predecessor, and is current only if it is the last. */
  ghost predicate RowInPlace(links: seq<Link>, i: nat)
    requires i < |links|
  {
    && links[i].number == Rows(links, links[i].owner, i) + 1
    && links[i].predecessor == LastRow(links, links[i].owner, i)
    && (links[i].current <==> LastRow(links, links[i].owner, |links|) == Some(i))
  }

  ghost predicate Chained(links: seq<Link>) {
    forall i :: 0 <= i < |links| ==> RowInPlace(links, i)
  }

  lemma {:induction false} LastRowIsLast(links: seq<Link>, owner: nat, n: nat)
    requires n <= |links|
    ensures var r := LastRow(links, owner, n);
            && (r.Some? ==> links[r.value].owner == owner)
            && (forall j :: 0 <= j < n && links[j].owner == owner ==> r.Some? && j <= r.value)
  {
    if n > 0 {
      LastRowIsLast(links, owner, n - 1);
    }
  }

  lemma {:induction false} FirstCurrentIsLastFrom(links: seq<Link>, owner: nat, i: nat)
    requires Chained(links) && i <= |links|
    ensures FirstCurrentFrom(links, owner, i)
            == (var last := LastRow(links, owner, |links|); if last.Some? && i <= last.value then last else None)
    decreases |links| - i
  {
    LastRowIsLast(links, owner, |links|);
    if i < |links| {
      FirstCurrentIsLastFrom(links, owner, i + 1);
      assert RowInPlace(links, i);
    }
  }

  lemma {:induction false} SameOwnersSameRows(a: seq<Link>, b: seq<Link>, owner: nat, n: nat)
    requires n <= |a| && n <= |b| && forall i :: 0 <= i < n ==> a[i].owner == b[i].owner
    ensures Rows(a, owner, n) == Rows(b, owner, n) && LastRow(a, owner, n) == LastRow(b, owner, n)
  {
    if n > 0 {
      SameOwnersSameRows(a, b, owner, n - 1);
    }
  }

  lemma {:induction false} NumberOfLastRow(links: seq<Link>, owner: nat, n: nat)
    requires Chained(links) && n <= |links|
    ensures NumberOf(links, LastRow(links, owner, n)) == Rows(links, owner, n)
  {
    if n > 0 {
      if links[n - 1].owner == owner {
        assert RowInPlace(links, n - 1);
      } else {
        NumberOfLastRow(links, owner, n - 1);
      }
    }
  }

  /** A write keeps every chain in the table well formed, and the row it finds is the owner's last. */
  lemma AppendKeepsChains(links: seq<Link>, owner: nat)
    requires Chained(links)
    ensures Chained(Append(links, owner))
    ensures FirstCurrent(links, owner) == LastRow(links, owner, |links|)
    ensures NumberOf(links, FirstCurrent(links, owner)) == Rows(links, owner, |links|)
  {
    FirstCurrentIsLastFrom(links, owner, 0);
    NumberOfLastRow(links, owner, |links|);
    var n, after := |links|, Append(links, owner);
    forall i | 0 <= i < |after| ensures RowInPlace(after, i) {
      SameOwnersSameRows(after, links, after[i].owner, i);
      SameOwnersSameRows(after, links, after[i].owner, n);
      if i < n {
        assert RowInPlace(links, i);
      }
    }
  }

  lemma {:induction false} RowsGrow(links: seq<Link>, owner: nat, m: nat, n: nat)
    requires m <= n <= |links|
    ensures Rows(links, owner, m) <= Rows(links, owner, n)
  {
    if m < n {
      RowsGrow(links, owner, m, n - 1);
    }
  }

  /** An owner's later rows carry larger numbers. */
  lemma NumbersGrow(links: seq<Link>, i: nat, j: nat)
    requires Chained(links) && i < j < |links| && links[i].owner == links[j].owner
    ensures links[i].number < links[j].number
  {
    RowsGrow(links, links[i].owner, i + 1, j);
    assert RowInPlace(links, i) && RowInPlace(links, j);
  }

  ghost predicate HasNumber(links: seq<Link>, owner: nat, i: nat, k: nat)
    requires i < |links|
  {
    links[i].owner == owner && links[i].number == k
  }

  lemma {:induction false} NumberedRowExists(links: seq<Link>, owner: nat, n: nat, k: nat)
    requires Chained(links) && n <= |links| && 1 <= k <= Rows(links, owner, n)
    ensures exists i :: 0 <= i < n && HasNumber(links, owner, i, k)
  {
    if links[n - 1].owner == owner && k == Rows(links, owner, n) {
      assert RowInPlace(links, n - 1);
      assert HasNumber(links, owner, n - 1, k);
    } else {
      NumberedRowExists(links, owner, n - 1, k);
    }
  }

  /** Each number 1..n is used: an owner with n rows has one for every number. */
  lemma NumbersAreComplete(links: seq<Link>, owner: nat, k: nat)
    requires Chained(links) && 1 <= k <= Rows(links, owner, |links|)
    ensures exists i :: 0 <= i < |links| && HasNumber(links, owner, i, k)
  {
    NumberedRowExists(links, owner, |links|, k);
  }

  /**
   What a row in a well-formed chain means: its number lies in 1..n for its owner's n rows, it is
   current exactly when it carries the number n, and it points at the row numbered one less.
   */
  lemma RowShape(links: seq<Link>, i: nat)
    requires Chained(links) && i < |links|
    ensures 1 <= links[i].number <= Rows(links, links[i].owner, |links|)
    ensures links[i].current <==> links[i].number == Rows(links, links[i].owner, |links|)
    ensures if links[i].number == 1 then links[i].predecessor.None?
            else && links[i].predecessor.Some?
                 && links[i].predecessor.value < i
                 && HasNumber(links, links[i].owner, links[i].predecessor.value, links[i].number - 1)
  {
    var owner := links[i].owner;
    assert RowInPlace(links, i);
    RowsGrow(links, owner, i + 1, |links|);
    NumberOfLastRow(links, owner, i);
    LastRowIsLast(links, owner, i);
    assert links[i].predecessor.Some? ==> RowInPlace(links, links[i].predecessor.value);
    NumberOfLastRow(links, owner, |links|);
    LastRowIsLast(links, owner, |links|);
    var last := LastRow(links, owner, |links|).value;
    if i < last {
      NumbersGrow(links, i, last);
    }
  }
}
