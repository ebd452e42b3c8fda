/** What each control of the row editor brings about; `ExpressRows` says what none of them disturbs. */
module ExpressRowEffects {
  import opened Prelude
  import opened Text
  import opened ExpressRows

  /** Typing puts what was typed into that row, for good until it is typed again, and into no other. */
  lemma TypingSets(e: Editor, index: nat, title: Option<Text>, price: Option<Text>)
    requires Inv(e) && index < |e.rows|
    ensures var r := Step(e, Change(index, title, price));
            && |r.rows| == |e.rows|
            && r.rows[index].title == (if title.Some? then title.value else e.rows[index].title)
            && r.rows[index].price == (if price.Some? then price.value else e.rows[index].price)
            && r.rows[index].id == e.rows[index].id
            && (forall i :: 0 <= i < |e.rows| && i != index ==> r.rows[i] == e.rows[i])
            && r.files == e.files
  {
    StepKeeps(e, Change(index, title, price));
    hide Inv, KeyOf;
  }

  /** A step up or down exchanges two rows; one past an end of the list, or for no row, changes nothing. */
  lemma StepMoves(e: Editor, index: nat, delta: int)
    requires Inv(e)
    ensures var r := Step(e, Reorder(index, delta));
            if index < |e.rows| && 0 <= index + delta < |e.rows| then
              && |r.rows| == |e.rows| && r.rows[index + delta] == e.rows[index] && r.rows[index] == e.rows[index + delta]
              && (forall i :: 0 <= i < |e.rows| && i != index && i != index + delta ==> r.rows[i] == e.rows[i])
              && r.files == e.files
            else r == e
  {
    StepKeeps(e, Reorder(index, delta));
    hide Inv, KeyOf;
  }

  /** A row with anything in it that cutting the list would lose. */
  predicate Holds(e: Editor, index: nat, defaultPrice: Text)
    requires index < |e.rows|
  {
    || e.rows[index].id.Some? || Trim(e.rows[index].title) != [] || e.rows[index].price != defaultPrice
    || FileAt(e, index).Some?
  }

  /** The number of rows asked for is one that the editor takes, and loses nothing. */
  predicate Takes(e: Editor, count: Option<int>, single: bool, defaultPrice: Text) {
    && count.Some? && 1 <= count.value <= 100 && (single ==> count.value == 1)
    && forall i :: count.value <= i < |e.rows| ==> !Holds(e, i, defaultPrice)
  }

  /** Preparing rows gives exactly that many, the first as they were and the new ones blank, or else changes nothing. */
  lemma PreparingFits(e: Editor, count: Option<int>, single: bool, defaultPrice: Text)
    requires Inv(e)
    ensures var r := Step(e, Generate(count, single, defaultPrice));
            && r.files == e.files
            && (if Takes(e, count, single, defaultPrice) then
                  && |r.rows| == count.value
                  && (forall i :: 0 <= i < |r.rows| && i < |e.rows| ==> r.rows[i] == e.rows[i])
                  && (forall i :: |e.rows| <= i < |r.rows| ==>
                        r.rows[i].id.None? && r.rows[i].title == [] && r.rows[i].price == defaultPrice)
                else r.rows == e.rows)
  {
    var g := GenerateRows(e, count, single, defaultPrice);
    forall i | 0 <= i < |e.rows| ensures Occupied(e, e.rows[i], defaultPrice) <==> Holds(e, i, defaultPrice) {
    }
    assert forall i :: |e.rows| <= i < |g.rows| ==> g.rows[i] == BlankRow(e.refs + (i - |e.rows|), defaultPrice);
    hide Inv, KeyOf, Trim, Occupied, Holds, NewRows;
    assert Step(e, Generate(count, single, defaultPrice)).rows == g.rows;
  }

  /** Taking a file back leaves that row without one. */
  lemma RemovingDrops(e: Editor, index: nat)
    requires Inv(e) && index < |e.rows|
    ensures var r := Step(e, RemoveFile(index));
            r.rows == e.rows && FileAt(r, index).None?
            && forall i :: 0 <= i < |e.rows| && i != index ==> FileAt(r, i) == FileAt(e, i)
  {
    StepKeeps(e, RemoveFile(index));
    forall i | 0 <= i < |e.rows| && i != index ensures FileAt(Unpick(e, index), i) == FileAt(e, i) {
      UnpickFollowed(e, index, i);
    }
    hide Inv;
  }

  /** Queueing the files empties the local choices; a choice puts its file on that row and leaves every other. */
  lemma QueueingEmpties(e: Editor)
    requires Inv(e)
    ensures var r := Step(e, FilesQueued); r.rows == e.rows && r.files == map[]
  {
    StepKeeps(e, FilesQueued);
    hide Inv;
  }

  /** A response that names every row once becomes the rows, in its order and with its texts; any other is left aside. */
  lemma SavingInstalls(e: Editor, tracks: seq<SavedTrack>)
    requires Inv(e)
    ensures var r := Step(e, Saved(tracks));
            if Matches(e.rows, tracks) then
              && |r.rows| == |tracks|
              && (forall i :: 0 <= i < |tracks| ==>
                    r.rows[i].id == tracks[i].id && r.rows[i].title == tracks[i].title && r.rows[i].price == tracks[i].price)
            else r == e
  {
    StepKeeps(e, Saved(tracks));
    hide Inv, Matches, Bind;
  }
}
