/**
 The rows of the music editor (components/music-express.tsx) and the local files chosen for them
 (lib/digital/express-audio-selection.ts): rows are objects with an identity, and a weak map names those without an id.
 */
module ExpressRows {
  import opened Prelude
  import opened Text

  datatype RowKey = TrackKey(id: nat) | LocalKey(serial: nat)

  /** `ref` is the identity of the JavaScript object. */
  datatype Row = Row(ref: nat, id: Option<nat>, title: Text, price: Text, clientKey: Option<RowKey>)

  /** `signature` stands for the name, size, type and date that tell files apart. */
  datatype LocalFile = LocalFile(signature: nat, content: nat)

  datatype SavedTrack = SavedTrack(id: Option<nat>, title: Text, price: Text)

  datatype Editor = Editor(rows: seq<Row>, transient: map<nat, nat>, refs: nat, minted: nat, files: map<RowKey, LocalFile>)

  datatype Incoming = NotOneFile | Unreadable | OneFile(file: LocalFile)

  datatype Event =
    | Change(index: nat, title: Option<Text>, price: Option<Text>)
    | Reorder(index: nat, delta: int)
    | Generate(count: Option<int>, single: bool, defaultPrice: Text)
    | PickFile(index: nat, incoming: Incoming)
    | RemoveFile(index: nat)
    | FilesQueued
    | Saved(tracks: seq<SavedTrack>)

  const MAX_ROWS: nat := 100

  function KeyOf(transient: map<nat, nat>, row: Row): Option<RowKey> {
    if row.id.Some? then Some(TrackKey(row.id.value))
    else if row.clientKey.Some? then row.clientKey
    else if row.ref in transient then Some(LocalKey(transient[row.ref]))
    else None
  }

  /** `audioRowKey`: names a row that has no key yet. */
  function Name(e: Editor, row: Row): Editor {
    if KeyOf(e.transient, row).Some? then e
    else e.(transient := e.transient[row.ref := e.minted], minted := e.minted + 1)
  }

  /** Rendering asks for the key of each row in turn. */
  function Render(e: Editor, count: nat): (r: Editor)
    requires count <= |e.rows|
    ensures r.rows == e.rows && r.files == e.files && r.refs == e.refs
  {
    if count == 0 then e else Name(Render(e, count - 1), e.rows[count - 1])
  }

  function Shown(e: Editor): Editor {
    Render(e, |e.rows|)
  }

  function BlankRow(ref: nat, price: Text): Row {
    Row(ref, None, [], price, None)
  }

  function NewRows(ref: nat, count: nat, price: Text): seq<Row> {
    seq(count, i requires 0 <= i < count => BlankRow(ref + i, price))
  }

  predicate Occupied(e: Editor, row: Row, defaultPrice: Text) {
    row.id.Some? || Trim(row.title) != [] || row.price != defaultPrice
    || (KeyOf(e.transient, row).Some? && KeyOf(e.transient, row).value in e.files)
  }

  function ChangeRow(e: Editor, index: nat, title: Option<Text>, price: Option<Text>): Editor {
    if index >= |e.rows| then e
    else
      var row := e.rows[index];
      e.(rows := e.rows[index := Row(e.refs, row.id, GetOr(title, row.title), GetOr(price, row.price),
                                     KeyOf(e.transient, row))],
         refs := e.refs + 1)
  }

  function ReorderRows(e: Editor, index: nat, delta: int): Editor {
    var target := index + delta;
    if index >= |e.rows| || target < 0 || target >= |e.rows| then e
    else e.(rows := e.rows[index := e.rows[target]][target := e.rows[index]])
  }

  function GenerateRows(e: Editor, count: Option<int>, single: bool, defaultPrice: Text): Editor {
    if count.None? || count.value < 1 || count.value > MAX_ROWS || (single && count.value != 1) then e
    else
      var n := count.value;
      if n < |e.rows| then
        if exists i :: n <= i < |e.rows| && Occupied(e, e.rows[i], defaultPrice) then e else e.(rows := e.rows[..n])
      else
        var added := n - |e.rows|;
        e.(rows := e.rows + NewRows(e.refs, added, defaultPrice), refs := e.refs + added)
  }

  predicate Elsewhere(files: map<RowKey, LocalFile>, key: RowKey, signature: nat) {
    exists other :: other in files && other != key && files[other].signature == signature
  }

  function Pick(e: Editor, index: nat, incoming: Incoming): Editor {
    if index >= |e.rows| || e.rows[index].id.Some? || KeyOf(e.transient, e.rows[index]).None? then e
    else
      var row, key := e.rows[index], KeyOf(e.transient, e.rows[index]).value;
      if !incoming.OneFile? || Elsewhere(e.files, key, incoming.file.signature) then e
      else e.(rows := e.rows[index := Row(e.refs, row.id, row.title, row.price, Some(key))], refs := e.refs + 1,
              files := e.files[key := incoming.file])
  }

  function Unpick(e: Editor, index: nat): Editor {
    if index >= |e.rows| || KeyOf(e.transient, e.rows[index]).None? then e
    else e.(files := e.files - {KeyOf(e.transient, e.rows[index]).value})
  }

  /** `bindExpressTrackFiles` accepts a response that names every row once and keeps the ids that rows already have. */
  predicate Matches(rows: seq<Row>, tracks: seq<SavedTrack>) {
    && |tracks| == |rows|
    && (forall i :: 0 <= i < |tracks| ==> tracks[i].id.Some?)
    && (forall i, j :: 0 <= i < j < |tracks| ==> tracks[i].id != tracks[j].id)
    && (forall i :: 0 <= i < |rows| && rows[i].id.Some? ==> rows[i].id == tracks[i].id)
  }

  function FileAt(e: Editor, index: nat): Option<LocalFile>
    requires index < |e.rows|
  {
    var key := KeyOf(e.transient, e.rows[index]);
    if key.Some? && key.value in e.files then Some(e.files[key.value]) else None
  }

  function Bind(e: Editor, tracks: seq<SavedTrack>, count: nat): map<RowKey, LocalFile>
    requires count <= |e.rows| == |tracks| && forall i :: 0 <= i < |tracks| ==> tracks[i].id.Some?
  {
    if count == 0 then map[]
    else
      var before, file := Bind(e, tracks, count - 1), FileAt(e, count - 1);
      if file.Some? then before[TrackKey(tracks[count - 1].id.value) := file.value] else before
  }

  function SavedRows(ref: nat, tracks: seq<SavedTrack>): seq<Row> {
    seq(|tracks|, i requires 0 <= i < |tracks| => Row(ref + i, tracks[i].id, tracks[i].title, tracks[i].price, None))
  }

  /** A response that does not match leaves the rows and the files as they are; the save then counts as uncertain. */
  function Install(e: Editor, tracks: seq<SavedTrack>): Editor {
    if !Matches(e.rows, tracks) then e
    else e.(rows := SavedRows(e.refs, tracks), refs := e.refs + |tracks|, files := Bind(e, tracks, |tracks|))
  }

  /** A handler and the rendering after it; the page keeps inputs disabled while it saves. */
  function Handle(e: Editor, event: Event): Editor {
    match event
    case Change(index, title, price) => ChangeRow(e, index, title, price)
    case Reorder(index, delta) => ReorderRows(e, index, delta)
    case Generate(count, single, defaultPrice) => GenerateRows(e, count, single, defaultPrice)
    case PickFile(index, incoming) => Pick(e, index, incoming)
    case RemoveFile(index) => Unpick(e, index)
    case FilesQueued => e.(files := map[])
    case Saved(tracks) => Install(e, tracks)
  }

  function Step(e: Editor, event: Event): Editor {
    Shown(Handle(e, event))
  }

  function Run(e: Editor, events: seq<Event>): Editor
    decreases |events|
  {
    if events == [] then e else Run(Step(e, events[0]), events[1..])
  }

  // ----- what every step keeps

  function KeyAt(e: Editor, index: nat): Option<RowKey>
    requires index < |e.rows|
  {
    KeyOf(e.transient, e.rows[index])
  }

  /** The names of the rows, in order. */
  function Keys(e: Editor): seq<Option<RowKey>> {
    seq(|e.rows|, i requires 0 <= i < |e.rows| => KeyAt(e, i))
  }

  function Refs(rows: seq<Row>): seq<nat> {
    seq(|rows|, i requires 0 <= i < |rows| => rows[i].ref)
  }

  predicate KeyBelow(key: Option<RowKey>, minted: nat) {
    key.Some? && key.value.LocalKey? ==> key.value.serial < minted
  }

  ghost predicate DistinctNames(keys: seq<Option<RowKey>>) {
    forall i, j :: 0 <= i < j < |keys| && keys[i].Some? ==> keys[i] != keys[j]
  }

  ghost predicate NamesBelow(keys: seq<Option<RowKey>>, minted: nat) {
    forall i :: 0 <= i < |keys| ==> KeyBelow(keys[i], minted)
  }

  /** Objects are distinct and older than the next one; only such objects have a transient name. */
  ghost predicate ObjectsSound(e: Editor) {
    && Distinct(Refs(e.rows)) && (forall i :: 0 <= i < |e.rows| ==> e.rows[i].ref < e.refs)
    && (forall ref :: ref in e.transient ==> ref < e.refs)
  }

  ghost predicate NamesSound(e: Editor) {
    DistinctNames(Keys(e)) && NamesBelow(Keys(e), e.minted)
  }

  ghost predicate AllNamed(e: Editor, count: nat)
    requires count <= |e.rows|
  {
    forall i :: 0 <= i < count ==> KeyAt(e, i).Some?
  }

  /** Each chosen file belongs to a row, and no two rows have the same one. */
  ghost predicate FilesSound(files: map<RowKey, LocalFile>, keys: seq<Option<RowKey>>) {
    && (forall key :: key in files ==> Some(key) in keys)
    && (forall k, l :: k in files && l in files && k != l ==> files[k].signature != files[l].signature)
  }

  ghost predicate Inv(e: Editor) {
    ObjectsSound(e) && NamesSound(e) && AllNamed(e, |e.rows|) && FilesSound(e.files, Keys(e))
  }

  lemma NamedByKeys(e: Editor)
    ensures AllNamed(e, |e.rows|) <==> forall i :: 0 <= i < |e.rows| ==> Keys(e)[i].Some?
  {
    assert forall i :: 0 <= i < |e.rows| ==> Keys(e)[i] == KeyAt(e, i);
  }

  /** The same rows, none of them renamed. */
  ghost predicate KeepsNames(e: Editor, r: Editor) {
    && r.rows == e.rows && r.refs == e.refs && r.files == e.files
    && forall i :: 0 <= i < |e.rows| && KeyAt(e, i).Some? ==> KeyAt(r, i) == KeyAt(e, i)
  }

  lemma NamingOne(e: Editor, index: nat)
    requires ObjectsSound(e) && index < |e.rows| && KeyAt(e, index).None?
    ensures Keys(Name(e, e.rows[index])) == Keys(e)[index := Some(LocalKey(e.minted))]
    ensures ObjectsSound(Name(e, e.rows[index]))
  {
    var r := Name(e, e.rows[index]);
    forall i | 0 <= i < |e.rows| && i != index ensures KeyAt(r, i) == KeyAt(e, i) {
      assert Refs(e.rows)[i] != Refs(e.rows)[index];
    }
  }

  lemma FreshNameIsDistinct(keys: seq<Option<RowKey>>, index: nat, minted: nat)
    requires index < |keys| && DistinctNames(keys) && NamesBelow(keys, minted)
    ensures DistinctNames(keys[index := Some(LocalKey(minted))])
    ensures NamesBelow(keys[index := Some(LocalKey(minted))], minted + 1)
  {
  }

  lemma NameOne(e: Editor, index: nat)
    requires ObjectsSound(e) && NamesSound(e) && index < |e.rows|
    ensures var r := Name(e, e.rows[index]);
            ObjectsSound(r) && NamesSound(r) && KeepsNames(e, r) && KeyAt(r, index).Some?
  {
    if KeyAt(e, index).None? {
      NamingOne(e, index);
      FreshNameIsDistinct(Keys(e), index, e.minted);
      var r := Name(e, e.rows[index]);
      hide ObjectsSound, DistinctNames, NamesBelow, KeyOf;
      assert forall i :: 0 <= i < |e.rows| ==> KeyAt(r, i) == Keys(r)[i] && KeyAt(e, i) == Keys(e)[i];
    }
  }

  /** Rendering gives every row a name of its own and renames none. */
  lemma {:induction false} RenderNames(e: Editor, count: nat)
    requires ObjectsSound(e) && NamesSound(e) && count <= |e.rows|
    ensures var r := Render(e, count);
            ObjectsSound(r) && NamesSound(r) && KeepsNames(e, r) && AllNamed(r, count)
  {
    if count > 0 {
      RenderNames(e, count - 1);
      NameOne(Render(e, count - 1), count - 1);
      hide ObjectsSound, NamesSound, Name, KeyAt;
    }
  }

  lemma {:induction false} RenderingNamedRowsIsIdle(e: Editor, count: nat)
    requires count <= |e.rows| && AllNamed(e, count)
    ensures Render(e, count) == e
  {
    if count > 0 {
      RenderingNamedRowsIsIdle(e, count - 1);
      assert KeyAt(e, count - 1).Some?;
    }
  }

  // ----- the handlers, by what they do to the names

  /** A copy of a row, a new object, keeps the name of the row. */
  lemma CopyKeeps(e: Editor, index: nat, copy: Row, files: map<RowKey, LocalFile>)
    requires ObjectsSound(e) && index < |e.rows| && KeyAt(e, index).Some?
    requires copy.ref == e.refs && copy.id == e.rows[index].id && copy.clientKey == KeyAt(e, index)
    ensures var r := e.(rows := e.rows[index := copy], refs := e.refs + 1, files := files);
            Keys(r) == Keys(e) && ObjectsSound(r)
  {
    var r := e.(rows := e.rows[index := copy], refs := e.refs + 1, files := files);
    assert Refs(r.rows) == Refs(e.rows)[index := e.refs];
    assert forall i :: 0 <= i < |e.rows| ==> Refs(e.rows)[i] == e.rows[i].ref;
    hide KeyOf;
    assert KeyAt(r, index) == KeyAt(e, index) by { CopyName(e.transient, e.rows[index], copy); }
    assert forall i :: 0 <= i < |e.rows| && i != index ==> KeyAt(r, i) == KeyAt(e, i);
  }

  lemma CopyName(transient: map<nat, nat>, row: Row, copy: Row)
    requires KeyOf(transient, row).Some? && copy.id == row.id && copy.clientKey == KeyOf(transient, row)
    ensures KeyOf(transient, copy) == KeyOf(transient, row)
  {
  }

  lemma SameNamesKeep(e: Editor, r: Editor)
    requires Inv(e) && Keys(r) == Keys(e) && r.minted == e.minted && ObjectsSound(r) && FilesSound(r.files, Keys(r))
    ensures Inv(r)
  {
    hide ObjectsSound, DistinctNames, NamesBelow, FilesSound, KeyOf, KeyAt;
    forall i | 0 <= i < |r.rows| ensures KeyAt(r, i).Some? {
      assert Keys(r)[i] == KeyAt(r, i) && Keys(e)[i] == KeyAt(e, i) && |Keys(r)| == |r.rows| && |Keys(e)| == |e.rows|;
    }
  }

  lemma ChangeKeeps(e: Editor, index: nat, title: Option<Text>, price: Option<Text>)
    requires Inv(e)
    ensures Inv(ChangeRow(e, index, title, price)) && Keys(ChangeRow(e, index, title, price)) == Keys(e)
  {
    hide ObjectsSound, NamesSound, FilesSound, KeyOf;
    if index < |e.rows| {
      var row, r := e.rows[index], ChangeRow(e, index, title, price);
      CopyKeeps(e, index, r.rows[index], e.files);
      SameNamesKeep(e, r);
    }
  }

  lemma PickKeeps(e: Editor, index: nat, incoming: Incoming)
    requires Inv(e)
    ensures Inv(Pick(e, index, incoming)) && Keys(Pick(e, index, incoming)) == Keys(e)
  {
    hide ObjectsSound, NamesSound, KeyOf;
    var r := Pick(e, index, incoming);
    if r != e {
      CopyKeeps(e, index, r.rows[index], r.files);
      assert Keys(e)[index] == KeyAt(e, index);
      SameNamesKeep(e, r);
    }
  }

  lemma UnpickKeeps(e: Editor, index: nat)
    requires Inv(e)
    ensures Inv(Unpick(e, index)) && Keys(Unpick(e, index)) == Keys(e)
  {
    assert Keys(Unpick(e, index)) == Keys(e);
    NamedByKeys(e);
    NamedByKeys(Unpick(e, index));
  }

  function Swapped<T>(s: seq<T>, i: nat, j: nat): seq<T>
    requires i < |s| && j < |s|
  {
    s[i := s[j]][j := s[i]]
  }

  lemma SwapKeepsNames(keys: seq<Option<RowKey>>, i: nat, j: nat, minted: nat)
    requires i < |keys| && j < |keys| && DistinctNames(keys) && NamesBelow(keys, minted)
    ensures DistinctNames(Swapped(keys, i, j)) && NamesBelow(Swapped(keys, i, j), minted)
    ensures forall key :: key in keys <==> key in Swapped(keys, i, j)
  {
    var s := Swapped(keys, i, j);
    forall key | key in keys ensures key in s {
      var k :| 0 <= k < |keys| && keys[k] == key;
      assert s[if k == i then j else if k == j then i else k] == key;
    }
  }

  lemma ReorderKeeps(e: Editor, index: nat, delta: int)
    requires Inv(e)
    ensures Inv(ReorderRows(e, index, delta))
  {
    var target, r := index + delta, ReorderRows(e, index, delta);
    if index < |e.rows| && 0 <= target < |e.rows| {
      assert Keys(r) == Swapped(Keys(e), index, target);
      assert Refs(r.rows) == Swapped(Refs(e.rows), index, target);
      SwapKeepsNames(Keys(e), index, target, e.minted);
      NamedByKeys(e);
      NamedByKeys(r);
      hide KeyOf;
      assert ObjectsSound(r);
      hide DistinctNames, NamesBelow, Distinct, ObjectsSound;
    }
  }

  lemma CutKeepsNames(keys: seq<Option<RowKey>>, count: nat, minted: nat)
    requires count <= |keys| && DistinctNames(keys) && NamesBelow(keys, minted)
    ensures DistinctNames(keys[..count]) && NamesBelow(keys[..count], minted)
  {
  }

  lemma CutKeeps(e: Editor, count: nat, defaultPrice: Text)
    requires Inv(e) && count < |e.rows|
    requires forall i :: count <= i < |e.rows| ==> !Occupied(e, e.rows[i], defaultPrice)
    ensures Inv(e.(rows := e.rows[..count]))
  {
    var r := e.(rows := e.rows[..count]);
    assert Keys(r) == Keys(e)[..count] && Refs(r.rows) == Refs(e.rows)[..count];
    CutKeepsNames(Keys(e), count, e.minted);
    NamedByKeys(e);
    NamedByKeys(r);
    forall key | key in e.files ensures Some(key) in Keys(r) {
      var i :| 0 <= i < |e.rows| && Keys(e)[i] == Some(key);
      assert KeyAt(e, i) == Some(key);
      assert Occupied(e, e.rows[i], defaultPrice);
      assert Keys(r)[i] == Some(key);
    }
    hide KeyOf, DistinctNames, NamesBelow;
  }

  lemma AppendedNames(e: Editor, count: nat, price: Text)
    requires ObjectsSound(e)
    ensures var r := e.(rows := e.rows + NewRows(e.refs, count, price), refs := e.refs + count);
            ObjectsSound(r) && Keys(r) == Keys(e) + seq(count, i => None)
  {
    var r := e.(rows := e.rows + NewRows(e.refs, count, price), refs := e.refs + count);
    assert forall i :: 0 <= i < |e.rows| ==> r.rows[i] == e.rows[i] && Refs(e.rows)[i] == e.rows[i].ref;
    assert forall i :: |e.rows| <= i < |r.rows| ==> r.rows[i] == BlankRow(e.refs + (i - |e.rows|), price);
    assert Keys(r) == Keys(e) + seq(count, i => None);
    hide KeyOf, KeyAt;
    assert forall i :: 0 <= i < |r.rows| ==> Refs(r.rows)[i] == r.rows[i].ref;
  }

  lemma GenerateKeeps(e: Editor, count: Option<int>, single: bool, defaultPrice: Text)
    requires Inv(e)
    ensures Inv(Shown(GenerateRows(e, count, single, defaultPrice)))
  {
    var g := GenerateRows(e, count, single, defaultPrice);
    if g == e || |g.rows| < |e.rows| {
      if g != e {
        CutKeeps(e, count.value, defaultPrice);
      }
      RenderingNamedRowsIsIdle(g, |g.rows|);
    } else {
      AppendedNames(e, count.value - |e.rows|, defaultPrice);
      RenderNames(g, |g.rows|);
      var r := Shown(g);
      forall key | key in e.files ensures Some(key) in Keys(r) {
        var i :| 0 <= i < |e.rows| && Keys(e)[i] == Some(key);
        assert Keys(g)[i] == Some(key) == KeyAt(g, i);
        assert Keys(r)[i] == KeyAt(r, i);
      }
    }
  }

  // ----- saving

  lemma BindUnfolds(e: Editor, tracks: seq<SavedTrack>, count: nat)
    requires count <= |e.rows| == |tracks| && forall i :: 0 <= i < |tracks| ==> tracks[i].id.Some?
    ensures Bind(e, tracks, count)
         == if count == 0 then map[]
            else
              var before, key := Bind(e, tracks, count - 1), KeyAt(e, count - 1);
              if key.Some? && key.value in e.files
              then before[TrackKey(tracks[count - 1].id.value) := e.files[key.value]] else before
  {
  }

  lemma {:induction false} BindFinds(e: Editor, tracks: seq<SavedTrack>, count: nat)
    requires count <= |e.rows| == |tracks| && Matches(e.rows, tracks)
    ensures var b := Bind(e, tracks, count);
            && (forall i :: 0 <= i < count ==>
                  (FileAt(e, i).Some? <==> TrackKey(tracks[i].id.value) in b)
                  && (FileAt(e, i).Some? ==> b[TrackKey(tracks[i].id.value)] == FileAt(e, i).value))
            && (forall key :: key in b ==> exists i :: 0 <= i < count && key == TrackKey(tracks[i].id.value))
  {
    if count > 0 {
      BindFinds(e, tracks, count - 1);
      hide KeyOf, FileAt;
      var b, before, last := Bind(e, tracks, count), Bind(e, tracks, count - 1), TrackKey(tracks[count - 1].id.value);
      assert forall i :: 0 <= i < count - 1 ==> TrackKey(tracks[i].id.value) != last;
      assert last !in before;
      forall key | key in b ensures exists i :: 0 <= i < count && key == TrackKey(tracks[i].id.value) {
        if key == last {
          assert key == TrackKey(tracks[count - 1].id.value);
        } else {
          var i :| 0 <= i < count - 1 && key == TrackKey(tracks[i].id.value);
        }
      }
    }
  }

  lemma FilesDiffer(e: Editor, i: nat, j: nat)
    requires Inv(e) && i < |e.rows| && j < |e.rows| && i != j && FileAt(e, i).Some? && FileAt(e, j).Some?
    ensures FileAt(e, i).value.signature != FileAt(e, j).value.signature
  {
    assert Keys(e)[i] == KeyAt(e, i) && Keys(e)[j] == KeyAt(e, j);
  }

  lemma SavedNames(e: Editor, tracks: seq<SavedTrack>)
    requires Matches(e.rows, tracks)
    ensures var r := Install(e, tracks);
            && |r.rows| == |tracks|
            && forall i :: 0 <= i < |tracks| ==> Keys(r)[i] == KeyAt(r, i) == Some(TrackKey(tracks[i].id.value))
  {
  }

  /** A matching response gives each row its saved id and moves its file under it: no file is lost, swapped or doubled. */
  lemma SavingKeepsFiles(e: Editor, tracks: seq<SavedTrack>)
    requires Inv(e) && Matches(e.rows, tracks)
    ensures var r := Install(e, tracks);
            && Inv(r)
            && forall i :: 0 <= i < |e.rows| ==> r.rows[i].id == tracks[i].id && FileAt(r, i) == FileAt(e, i)
  {
    var r := Install(e, tracks);
    SavedNames(e, tracks);
    BindFinds(e, tracks, |tracks|);
    assert forall i :: 0 <= i < |e.rows| ==> FileAt(r, i) == FileAt(e, i);
    SavedObjects(e, tracks);
    SavedFiles(e, tracks);
    hide KeyOf, FileAt, ObjectsSound, FilesSound, Matches;
    assert forall i :: 0 <= i < |tracks| ==> r.rows[i].id == tracks[i].id;
    SavedNamesDiffer(tracks, Keys(r));
    NamedByKeys(r);
    hide SavedRows, Bind;
  }

  lemma SavedNamesDiffer(tracks: seq<SavedTrack>, keys: seq<Option<RowKey>>)
    requires |keys| == |tracks| && (forall i :: 0 <= i < |tracks| ==> tracks[i].id.Some?)
    requires forall i, j :: 0 <= i < j < |tracks| ==> tracks[i].id != tracks[j].id
    requires forall i :: 0 <= i < |tracks| ==> keys[i] == Some(TrackKey(tracks[i].id.value))
    ensures DistinctNames(keys) && forall minted :: NamesBelow(keys, minted)
  {
  }

  lemma SavedObjects(e: Editor, tracks: seq<SavedTrack>)
    requires ObjectsSound(e) && Matches(e.rows, tracks)
    ensures ObjectsSound(Install(e, tracks))
  {
    var r := Install(e, tracks);
    assert forall i :: 0 <= i < |tracks| ==> Refs(r.rows)[i] == e.refs + i;
  }

  lemma SavedFiles(e: Editor, tracks: seq<SavedTrack>)
    requires Inv(e) && Matches(e.rows, tracks)
    ensures FilesSound(Install(e, tracks).files, Keys(Install(e, tracks)))
  {
    var r := Install(e, tracks);
    SavedNames(e, tracks);
    BindFinds(e, tracks, |tracks|);
    hide KeyOf, FileAt, ObjectsSound, Inv;
    forall k, l | k in r.files && l in r.files && k != l ensures r.files[k].signature != r.files[l].signature {
      var i :| 0 <= i < |e.rows| && k == TrackKey(tracks[i].id.value);
      var j :| 0 <= j < |e.rows| && l == TrackKey(tracks[j].id.value);
      FilesDiffer(e, i, j);
    }
    forall key | key in r.files ensures Some(key) in Keys(r) {
      var i :| 0 <= i < |e.rows| && key == TrackKey(tracks[i].id.value);
      assert Keys(r)[i] == Some(key);
    }
  }

  // ----- over whole runs

  lemma StepKeeps(e: Editor, event: Event)
    requires Inv(e)
    ensures Inv(Step(e, event))
    ensures !event.Generate? ==> Step(e, event) == Handle(e, event)
  {
    match event {
      case Change(index, title, price) => ChangeKeeps(e, index, title, price);
      case Reorder(index, delta) => ReorderKeeps(e, index, delta);
      case Generate(count, single, defaultPrice) => GenerateKeeps(e, count, single, defaultPrice);
      case PickFile(index, incoming) => PickKeeps(e, index, incoming);
      case RemoveFile(index) => UnpickKeeps(e, index);
      case FilesQueued => QueueKeeps(e);
      case Saved(tracks) => if Matches(e.rows, tracks) { SavingKeepsFiles(e, tracks); }
    }
    if !event.Generate? {
      hide ObjectsSound, NamesSound, FilesSound, KeyAt;
      RenderingNamedRowsIsIdle(Handle(e, event), |Handle(e, event).rows|);
    }
  }

  lemma QueueKeeps(e: Editor)
    requires Inv(e)
    ensures Inv(e.(files := map[]))
  {
    assert Keys(e.(files := map[])) == Keys(e);
    NamedByKeys(e);
    NamedByKeys(e.(files := map[]));
  }

  /** Where the row at `index` is after an event, unless the event dropped it. */
  function Position(e: Editor, event: Event, index: nat): Option<nat> {
    match event
    case Reorder(from, delta) =>
      if from >= |e.rows| || from + delta < 0 || from + delta >= |e.rows| then Some(index)
      else if index == from then Some(from + delta) else if index == from + delta then Some(from) else Some(index)
    case Generate(_, _, _) => if index < |Step(e, event).rows| then Some(index) else None
    case _ => Some(index)
  }

  predicate ChoosesFile(event: Event, index: nat) {
    (event.PickFile? && event.index == index) || (event.RemoveFile? && event.index == index) || event.FilesQueued?
  }

  predicate Retypes(event: Event, index: nat) {
    (event.Change? && event.index == index) || event.Saved?
  }

  /** The row at `index` and what became of it in `r`, where it is at `position`. */
  ghost predicate Follows(e: Editor, event: Event, index: nat, r: Editor, position: nat)
    requires index < |e.rows|
  {
    && position < |r.rows|
    && (!event.Saved? ==> KeyAt(r, position) == KeyAt(e, index))
    && (e.rows[index].id.Some? ==> r.rows[position].id == e.rows[index].id)
    && (!ChoosesFile(event, index) ==> FileAt(r, position) == FileAt(e, index))
    && (!Retypes(event, index) ==> r.rows[position].title == e.rows[index].title
                                   && r.rows[position].price == e.rows[index].price)
  }

  lemma ChangeFollowed(e: Editor, event: Event, index: nat)
    requires Inv(e) && index < |e.rows| && (event.Change? || event.FilesQueued? || event.RemoveFile?)
    ensures Follows(e, event, index, Handle(e, event), index)
  {
    hide ObjectsSound, NamesSound, FilesSound;
    assert Keys(e)[index] == KeyAt(e, index);
    if event.Change? {
      ChangeKeeps(e, event.index, event.title, event.price);
      assert Keys(Handle(e, event))[index] == KeyAt(Handle(e, event), index);
      hide KeyOf;
    } else if event.RemoveFile? {
      UnpickFollowed(e, event.index, index);
    }
  }

  lemma ReorderFollowed(e: Editor, event: Event, index: nat)
    requires index < |e.rows| && event.Reorder?
    ensures Position(e, event, index).Some?
            && Follows(e, event, index, Handle(e, event), Position(e, event, index).value)
  {
    hide KeyOf;
  }

  lemma SaveFollowed(e: Editor, event: Event, index: nat)
    requires Inv(e) && index < |e.rows| && event.Saved?
    ensures Follows(e, event, index, Handle(e, event), index)
  {
    if Matches(e.rows, event.tracks) {
      SavingKeepsFiles(e, event.tracks);
    }
    hide KeyOf, Bind, SavedRows, ObjectsSound, NamesSound, FilesSound;
  }

  lemma PickEventFollowed(e: Editor, event: Event, index: nat)
    requires Inv(e) && index < |e.rows| && event.PickFile?
    ensures Follows(e, event, index, Handle(e, event), index)
  {
    PickKeeps(e, event.index, event.incoming);
    PickFollowed(e, event.index, event.incoming, index);
    assert Keys(e)[index] == KeyAt(e, index);
    assert Keys(Handle(e, event))[index] == KeyAt(Handle(e, event), index);
    hide ObjectsSound, NamesSound, FilesSound, KeyAt, FileAt;
  }

  /**
   A row keeps its name until it is saved, its id for good, its file until another choice is made for it, and what was
   typed until it is retyped. Only a row without id, title, file or changed price is ever dropped.
   */
  lemma RowFollowed(e: Editor, event: Event, index: nat)
    requires Inv(e) && index < |e.rows|
    ensures var position := Position(e, event, index);
            if position.Some? then Follows(e, event, index, Step(e, event), position.value)
            else event.Generate? && !Occupied(e, e.rows[index], event.defaultPrice)
  {
    StepKeeps(e, event);
    hide Inv;
    if event.Generate? {
      GenerateFollowed(e, event.count, event.single, event.defaultPrice, index);
      hide GenerateRows, Shown, Occupied, KeyAt;
    } else if event.Reorder? {
      ReorderFollowed(e, event, index);
    } else if event.Saved? {
      SaveFollowed(e, event, index);
      hide Handle, Follows;
    } else if event.PickFile? {
      PickEventFollowed(e, event, index);
      hide Handle, Follows;
    } else {
      ChangeFollowed(e, event, index);
      hide Handle, Follows;
    }
  }

  /** Where the row at `index` is after a run, unless it was dropped. */
  function PositionAfter(e: Editor, events: seq<Event>, index: nat): Option<nat>
    decreases |events|
  {
    if events == [] then Some(index)
    else
      var position := Position(e, events[0], index);
      if position.None? then None else PositionAfter(Step(e, events[0]), events[1..], position.value)
  }

  /** No file was chosen or taken back for that row during the run. */
  predicate FileUntouched(e: Editor, events: seq<Event>, index: nat)
    decreases |events|
  {
    events == [] ||
    (!ChoosesFile(events[0], index)
     && (Position(e, events[0], index).Some? ==>
           FileUntouched(Step(e, events[0]), events[1..], Position(e, events[0], index).value)))
  }

  /** Through any edits, moves, generations and saves a chosen file stays with its row, which is never dropped. */
  lemma {:induction false} FileStaysAttached(e: Editor, events: seq<Event>, index: nat)
    requires Inv(e) && index < |e.rows| && FileAt(e, index).Some? && FileUntouched(e, events, index)
    ensures Inv(Run(e, events))
    ensures var position := PositionAfter(e, events, index);
            position.Some? && position.value < |Run(e, events).rows|
            && FileAt(Run(e, events), position.value) == FileAt(e, index)
    decreases |events|
  {
    if events != [] {
      RowFollowed(e, events[0], index);
      StepKeeps(e, events[0]);
      hide Inv, Step, Position, KeyAt;
      FileStaysAttached(Step(e, events[0]), events[1..], Position(e, events[0], index).value);
    }
  }

  /** Choosing a file either attaches it to the row, or leaves everything because the choice or the file is refused. */
  lemma PickingAttaches(e: Editor, index: nat, incoming: Incoming)
    requires Inv(e) && index < |e.rows| && e.rows[index].id.None?
    ensures var r := Pick(e, index, incoming);
            if incoming.OneFile? && forall i :: 0 <= i < |e.rows| && i != index && FileAt(e, i).Some? ==>
                                      FileAt(e, i).value.signature != incoming.file.signature
            then FileAt(r, index) == Some(incoming.file)
            else r == e
  {
    PickKeeps(e, index, incoming);
    var r := Pick(e, index, incoming);
    assert Keys(e)[index] == KeyAt(e, index) && Keys(r)[index] == KeyAt(r, index);
    hide ObjectsSound, KeyOf;
    if incoming.OneFile? {
      var key := KeyAt(e, index).value;
      if Elsewhere(e.files, key, incoming.file.signature) {
        var other :| other in e.files && other != key && e.files[other].signature == incoming.file.signature;
        var i :| 0 <= i < |e.rows| && Keys(e)[i] == Some(other);
        assert KeyAt(e, i) == Some(other) && FileAt(e, i).Some?;
      } else {
        forall i | 0 <= i < |e.rows| && i != index && FileAt(e, i).Some?
          ensures FileAt(e, i).value.signature != incoming.file.signature
        {
          assert Keys(e)[i] == KeyAt(e, i);
        }
      }
    }
  }

  /** Moving a row up or down only permutes the rows. */
  lemma ReorderPermutes(e: Editor, index: nat, delta: int)
    ensures multiset(ReorderRows(e, index, delta).rows) == multiset(e.rows)
  {
  }

  lemma GenerateFollowed(e: Editor, count: Option<int>, single: bool, defaultPrice: Text, index: nat)
    requires Inv(e) && index < |e.rows|
    ensures var g := GenerateRows(e, count, single, defaultPrice);
            if index < |g.rows| then
              && Shown(g).rows[index] == e.rows[index] && Shown(g).files == e.files
              && KeyAt(Shown(g), index) == KeyAt(e, index)
            else !Occupied(e, e.rows[index], defaultPrice)
  {
    var g := GenerateRows(e, count, single, defaultPrice);
    if |g.rows| <= |e.rows| {
      if g != e && |g.rows| < |e.rows| {
        CutKeeps(e, count.value, defaultPrice);
      }
      hide ObjectsSound, NamesSound, FilesSound;
      RenderingNamedRowsIsIdle(g, |g.rows|);
    } else {
      AppendedNames(e, count.value - |e.rows|, defaultPrice);
      assert Keys(g)[index] == KeyAt(g, index) == KeyAt(e, index);
      assert NamesSound(g);
      hide ObjectsSound, NamesSound, FilesSound, KeyOf;
      RenderNames(g, |g.rows|);
    }
  }

  lemma PickFollowed(e: Editor, i: nat, incoming: Incoming, index: nat)
    requires Inv(e) && index < |e.rows| && Keys(Pick(e, i, incoming)) == Keys(e)
    ensures i != index ==> FileAt(Pick(e, i, incoming), index) == FileAt(e, index)
  {
    var r := Pick(e, i, incoming);
    if i < |e.rows| && i != index {
      assert Keys(e)[index] == KeyAt(e, index) && Keys(e)[i] == KeyAt(e, i);
      assert Keys(r)[index] == KeyAt(r, index);
    }
  }

  lemma UnpickFollowed(e: Editor, i: nat, index: nat)
    requires Inv(e) && index < |e.rows|
    ensures i != index ==> FileAt(Unpick(e, i), index) == FileAt(e, index)
  {
    if i < |e.rows| {
      assert Keys(e)[index] == KeyAt(e, index) && Keys(e)[i] == KeyAt(e, i);
    }
  }

  /** Rows as the page first makes them, from a project or a cached form: new objects, ids not repeated, no local name. */
  lemma OpenedHolds(rows: seq<Row>)
    requires forall i :: 0 <= i < |rows| ==> rows[i].ref == i && rows[i].clientKey.None?
    requires forall i, j :: 0 <= i < j < |rows| && rows[i].id.Some? ==> rows[i].id != rows[j].id
    ensures Inv(Shown(Editor(rows, map[], |rows|, 0, map[])))
  {
    var e := Editor(rows, map[], |rows|, 0, map[]);
    assert forall i :: 0 <= i < |rows| ==>
                         Keys(e)[i] == (if rows[i].id.Some? then Some(TrackKey(rows[i].id.value)) else None);
    assert forall i :: 0 <= i < |rows| ==> Refs(rows)[i] == i;
    RenderNames(e, |rows|);
  }

  // ----- binding, as the checks of the source

  predicate FilesAmong(files: map<RowKey, LocalFile>, keys: seq<RowKey>) {
    forall key :: key in files ==> key in keys
  }

  predicate SignaturesDiffer(files: map<RowKey, LocalFile>) {
    forall k, l :: k in files && l in files && k != l ==> files[k].signature != files[l].signature
  }

  predicate KeysDiffer(keys: seq<RowKey>) {
    forall i, j :: 0 <= i < j < |keys| ==> keys[i] != keys[j]
  }

  /** In a reachable editor the checks of `bindExpressTrackFiles` can only fail by what the response says. */
  lemma OnlyTheResponseCanMismatch(e: Editor, keys: seq<RowKey>)
    requires Inv(e) && |keys| == |e.rows| && forall i :: 0 <= i < |keys| ==> KeyAt(e, i) == Some(keys[i])
    ensures KeysDiffer(keys) && FilesAmong(e.files, keys) && SignaturesDiffer(e.files)
  {
    assert forall i :: 0 <= i < |keys| ==> Keys(e)[i] == Some(keys[i]);
    forall key | key in e.files ensures key in keys {
      var i :| 0 <= i < |e.rows| && Keys(e)[i] == Some(key);
      assert keys[i] == key;
    }
  }
}
