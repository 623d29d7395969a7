/**
 * The legend click rule shared by the three charts: clicking a legend entry
 * toggles that dataset's visibility, except that the only visible dataset is
 * never hidden. Visibility is one flag per dataset, in dataset order.
 */
module Legend {

  /** `legendItem.datasetIndex`, which Chart.js may leave undefined. */
  datatype DatasetIndex = Undefined | Index(value: nat)

  /** `datasets.filter((_, i) => chart.isDatasetVisible(i)).length`. */
  function VisibleCount(visible: seq<bool>): (n: nat)
    ensures n <= |visible|
  {
    if |visible| == 0 then 0
    else (if visible[0] then 1 else 0) + VisibleCount(visible[1..])
  }

  /** An index the click may name: undefined, or one of the datasets. */
  predicate InRange(visible: seq<bool>, clicked: DatasetIndex) {
    clicked.Index? ==> clicked.value < |visible|
  }

  /** The visibility flags after one legend click. */
  function Clicked(visible: seq<bool>, clicked: DatasetIndex): (r: seq<bool>)
    requires InRange(visible, clicked)
    ensures |r| == |visible|
  {
    match clicked
    case Undefined => visible
    case Index(i) =>
      if VisibleCount(visible) == 1 && visible[i] then visible
      else visible[i := !visible[i]]
  }

  /** Flipping one flag changes the count of visible datasets by exactly one. */
  lemma {:induction false} CountAfterFlip(visible: seq<bool>, i: nat)
    requires i < |visible|
    ensures VisibleCount(visible[i := !visible[i]])
            == if visible[i] then VisibleCount(visible) - 1 else VisibleCount(visible) + 1
  {
    var flipped := visible[i := !visible[i]];
    if i == 0 {
      assert flipped[1..] == visible[1..];
    } else {
      assert flipped[1..] == visible[1..][i - 1 := !visible[i]];
      CountAfterFlip(visible[1..], i - 1);
    }
  }

  /** A dataset is the last visible one exactly when it is visible and no other is. */
  lemma {:induction false} OnlyVisible(visible: seq<bool>, i: nat)
    requires i < |visible|
    ensures (VisibleCount(visible) == 1 && visible[i])
            <==> (visible[i] && forall j :: 0 <= j < |visible| && j != i ==> !visible[j])
  {
    if i == 0 {
      NoneVisible(visible[1..]);
      assert forall j :: 1 <= j < |visible| ==> visible[j] == visible[1..][j - 1];
    } else {
      OnlyVisible(visible[1..], i - 1);
      NoneVisible(visible[1..]);
      assert forall j :: 1 <= j < |visible| ==> visible[j] == visible[1..][j - 1];
    }
  }

  /** No dataset is visible exactly when the count is zero. */
  lemma {:induction false} NoneVisible(visible: seq<bool>)
    ensures VisibleCount(visible) == 0 <==> forall j :: 0 <= j < |visible| ==> !visible[j]
  {
    if |visible| > 0 {
      NoneVisible(visible[1..]);
      assert forall j :: 1 <= j < |visible| ==> visible[j] == visible[1..][j - 1];
    }
  }

  /**
   * A click never leaves zero datasets visible: if one was visible before, or
   * a dataset was clicked at all, at least one is visible after.
   */
  lemma ClickKeepsOneVisible(visible: seq<bool>, clicked: DatasetIndex)
    requires InRange(visible, clicked)
    requires VisibleCount(visible) >= 1 || clicked.Index?
    ensures VisibleCount(Clicked(visible, clicked)) >= 1
  {
    if clicked.Index? {
      CountAfterFlip(visible, clicked.value);
    }
  }

  /**
   * A click on dataset i changes no other dataset, and leaves dataset i
   * unchanged exactly when it is the only visible one.
   */
  lemma ClickIsLocal(visible: seq<bool>, i: nat)
    requires i < |visible|
    ensures forall j :: 0 <= j < |visible| && j != i ==> Clicked(visible, Index(i))[j] == visible[j]
    ensures Clicked(visible, Index(i))[i] == visible[i]
            <==> (visible[i] && forall j :: 0 <= j < |visible| && j != i ==> !visible[j])
  {
    OnlyVisible(visible, i);
  }

  /** A click with an undefined dataset index changes nothing. */
  lemma ClickUndefinedIsNoop(visible: seq<bool>)
    ensures Clicked(visible, Undefined) == visible
  {
  }

  /** While some dataset is visible, clicking the same entry twice restores every flag. */
  lemma ClickTwiceRestores(visible: seq<bool>, i: nat)
    requires i < |visible|
    requires VisibleCount(visible) >= 1
    ensures Clicked(Clicked(visible, Index(i)), Index(i)) == visible
  {
    if !(VisibleCount(visible) == 1 && visible[i]) {
      CountAfterFlip(visible, i);
      var once := visible[i := !visible[i]];
      assert once[i := !once[i]] == visible;
    }
  }

  /**
   * The `onClick` handler: reads the clicked index, counts the visible
   * datasets and toggles the clicked one in place unless it is the last one
   * visible.
   */
  method Click(visible: array<bool>, clicked: DatasetIndex)
    requires InRange(visible[..], clicked)
    modifies visible
    ensures visible[..] == Clicked(old(visible[..]), clicked)
  {
    if clicked.Undefined? {
      return;
    }
    var i := clicked.value;
    var visibleCount := VisibleCount(visible[..]);
    if visibleCount == 1 && visible[i] {
      return;
    }
    visible[i] := !visible[i];
  }
}
