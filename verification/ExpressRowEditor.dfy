/** The row handlers of components/music-express.tsx in the form of the source. */
module ExpressRowEditor {
  import opened Prelude
  import opened Text
  import opened ExpressRows

  class RowEditor {
    var tracks: seq<Row>
    var transientRowKeys: map<nat, nat>
    var refs: nat
    var minted: nat
    var preparedAudio: map<RowKey, LocalFile>

    function View(): Editor
      reads this
    {
      Editor(tracks, transientRowKeys, refs, minted, preparedAudio)
    }

    constructor (rows: seq<Row>)
      requires forall i :: 0 <= i < |rows| ==> rows[i].ref == i && rows[i].clientKey.None?
      requires forall i, j :: 0 <= i < j < |rows| && rows[i].id.Some? ==> rows[i].id != rows[j].id
      ensures View() == Editor(rows, map[], |rows|, 0, map[]) && Inv(Shown(View()))
    {
      tracks, transientRowKeys, refs, minted, preparedAudio := rows, map[], |rows|, 0, map[];
      new;
      OpenedHolds(rows);
    }

    method AudioRowKey(track: Row) returns (key: RowKey)
      modifies this
      ensures View() == Name(old(View()), track) && KeyOf(transientRowKeys, track) == Some(key)
    {
      if track.id.Some? { return TrackKey(track.id.value); }
      if track.clientKey.Some? { return track.clientKey.value; }
      if track.ref !in transientRowKeys {
        transientRowKeys := transientRowKeys[track.ref := minted];
        minted := minted + 1;
      }
      return LocalKey(transientRowKeys[track.ref]);
    }

    method RenderRows()
      modifies this
      ensures View() == Shown(old(View()))
    {
      for i := 0 to |tracks|
        invariant View() == Render(old(View()), i)
      {
        var _ := AudioRowKey(tracks[i]);
      }
    }

    method ChangedTrack(index: nat, title: Option<Text>, price: Option<Text>)
      requires Inv(View()) && index < |tracks|
      modifies this
      ensures View() == Handle(old(View()), Change(index, title, price)) && Inv(View())
    {
      ChangeKeeps(View(), index, title, price);
      var track := tracks[index];
      assert KeyAt(View(), index).Some?;
      var key := AudioRowKey(track);
      tracks := tracks[index := Row(refs, track.id, GetOr(title, track.title), GetOr(price, track.price), Some(key))];
      refs := refs + 1;
    }

    method OnReorder(index: nat, delta: int)
      requires Inv(View()) && index < |tracks|
      modifies this
      ensures View() == Handle(old(View()), Reorder(index, delta)) && Inv(View())
      ensures multiset(tracks) == multiset(old(tracks))
    {
      ReorderKeeps(View(), index, delta);
      ReorderPermutes(View(), index, delta);
      var next, target := tracks, index + delta;
      if target < 0 || target >= |next| { return; }
      next := next[index := next[target]][target := next[index]];
      tracks := next;
    }

    /** `generate` without the rendering after it. */
    method OnGenerate(count: Option<int>, single: bool, defaultPrice: Text)
      requires Inv(View())
      modifies this
      ensures View() == Handle(old(View()), Generate(count, single, defaultPrice))
    {
      if count.None? || count.value < 1 || count.value > MAX_ROWS || (single && count.value != 1) { return; }
      var n: nat := count.value;
      if n < |tracks| {
        for i := n to |tracks|
          invariant View() == old(View())
          invariant forall k :: n <= k < i ==> !Occupied(View(), tracks[k], defaultPrice)
        {
          var t := tracks[i];
          assert KeyAt(View(), i).Some?;
          var key := AudioRowKey(t);
          if t.id.Some? || Trim(t.title) != [] || key in preparedAudio || t.price != defaultPrice {
            assert Occupied(View(), tracks[i], defaultPrice);
            return;
          }
        }
        tracks := tracks[..n];
        return;
      }
      var added := n - |tracks|;
      tracks := tracks + NewRows(refs, added, defaultPrice);
      refs := refs + added;
    }

    /** A drop on the file field of a row that has no saved id yet. */
    method OnFiles(index: nat, incoming: Incoming)
      requires Inv(View()) && index < |tracks| && tracks[index].id.None?
      modifies this
      ensures View() == Handle(old(View()), PickFile(index, incoming)) && Inv(View())
    {
      PickKeeps(View(), index, incoming);
      var track := tracks[index];
      assert KeyAt(View(), index).Some?;
      var key := AudioRowKey(track);
      if !incoming.OneFile? { return; }
      var signature := incoming.file.signature;
      if exists other :: other in preparedAudio && other != key && preparedAudio[other].signature == signature { return; }
      tracks := tracks[index := Row(refs, track.id, track.title, track.price, Some(key))];
      refs := refs + 1;
      preparedAudio := preparedAudio[key := incoming.file];
    }

    method OnRemoveFile(index: nat)
      requires Inv(View()) && index < |tracks|
      modifies this
      ensures View() == Handle(old(View()), RemoveFile(index)) && Inv(View())
    {
      UnpickKeeps(View(), index);
      assert KeyAt(View(), index).Some?;
      var key := AudioRowKey(tracks[index]);
      preparedAudio := preparedAudio - {key};
    }

    /** The end of `save`: it binds the files to the saved rows, or throws and changes nothing. */
    method OnSaved(saved: seq<SavedTrack>) returns (bound: bool)
      requires Inv(View())
      modifies this
      ensures bound == Matches(old(tracks), saved)
      ensures View() == Handle(old(View()), Saved(saved)) && Inv(View())
      ensures bound ==> forall i :: 0 <= i < |tracks| ==> FileAt(View(), i) == old(FileAt(View(), i))
    {
      hide ObjectsSound, NamesSound, FilesSound, Bind;
      ghost var before := View();
      if Matches(tracks, saved) {
        SavingKeepsFiles(before, saved);
      }
      var keys := [];
      for i := 0 to |tracks|
        invariant View() == before
        invariant |keys| == i && forall k :: 0 <= k < i ==> KeyAt(before, k) == Some(keys[k])
      {
        assert KeyAt(View(), i).Some?;
        var key := AudioRowKey(tracks[i]);
        keys := keys + [key];
      }
      OnlyTheResponseCanMismatch(before, keys);
      if !KeysDiffer(keys) || !FilesAmong(preparedAudio, keys) || !SignaturesDiffer(preparedAudio) { return false; }
      if !Matches(tracks, saved) { return false; }
      var files := map[];
      assert Bind(before, saved, 0) == map[] by { BindUnfolds(before, saved, 0); }
      for i := 0 to |saved|
        invariant View() == before && files == Bind(before, saved, i)
      {
        BindUnfolds(before, saved, i + 1);
        assert KeyAt(before, i) == Some(keys[i]);
        if keys[i] in preparedAudio {
          files := files[TrackKey(saved[i].id.value) := preparedAudio[keys[i]]];
        }
      }
      preparedAudio := files;
      tracks := SavedRows(refs, saved);
      refs := refs + |saved|;
      return true;
    }
  }
}
