/**
 * The local media store: a table from folder name to the list of media
 * records filed under it, read and updated in place by the admin and
 * upload pages and read by the local player.
 *
 * The table is a JavaScript object, whose string keys enumerate in
 * insertion order; `keys` records that order and `data` the lists.
 * Persistence (localStorage, IndexedDB, JSON, backup download) is not
 * part of this model.
 */
module FileStore {
  import opened Seqs
  import opened Text
  import opened Types

  type Folders = map<string, seq<MediaFile>>

  /** `keys` lists every key of the table once, in insertion order. */
  ghost predicate WellKeyed(keys: seq<string>, data: Folders) {
    && (forall i, j :: 0 <= i < j < |keys| ==> keys[i] != keys[j])
    && (forall k :: k in data <==> k in keys)
  }

  /** The lists of the folders named by `keys`, concatenated in key order. */
  function Flatten(keys: seq<string>, data: Folders): seq<MediaFile>
    requires forall k :: k in keys ==> k in data
  {
    if keys == [] then []
    else Flatten(keys[..|keys| - 1], data) + data[keys[|keys| - 1]]
  }

  /** The sum of the lengths of the folders named by `keys`. */
  function TotalCount(keys: seq<string>, data: Folders): nat
    requires forall k :: k in keys ==> k in data
  {
    if keys == [] then 0
    else TotalCount(keys[..|keys| - 1], data) + |data[keys[|keys| - 1]]|
  }

  lemma {:induction false} FlattenLength(keys: seq<string>, data: Folders)
    requires forall k :: k in keys ==> k in data
    ensures |Flatten(keys, data)| == TotalCount(keys, data)
  {
    if keys != [] {
      FlattenLength(keys[..|keys| - 1], data);
    }
  }

  /** A record is in the concatenation exactly when some listed folder holds it. */
  lemma {:induction false} FlattenMembership(keys: seq<string>, data: Folders, x: MediaFile)
    requires forall k :: k in keys ==> k in data
    ensures x in Flatten(keys, data) <==> exists k :: k in keys && x in data[k]
  {
    if keys != [] {
      var init := keys[..|keys| - 1];
      FlattenMembership(init, data, x);
      assert forall k :: k in keys <==> k in init || k == keys[|keys| - 1];
    }
  }

  /** Every record of a listed folder is in the concatenation. */
  lemma FlattenHolds(keys: seq<string>, data: Folders, k: string)
    requires forall k :: k in keys ==> k in data
    requires k in keys
    ensures forall x :: x in data[k] ==> x in Flatten(keys, data)
  {
    forall x | x in data[k] ensures x in Flatten(keys, data) {
      FlattenMembership(keys, data, x);
    }
  }

  /** The concatenation depends only on the folders that are listed. */
  lemma {:induction false} FlattenFrame(keys: seq<string>, d1: Folders, d2: Folders)
    requires forall k :: k in keys ==> k in d1 && k in d2 && d1[k] == d2[k]
    ensures Flatten(keys, d1) == Flatten(keys, d2)
  {
    if keys != [] {
      FlattenFrame(keys[..|keys| - 1], d1, d2);
    }
  }

  /** The keys after making sure `k` exists: appended when it is new. */
  function KeysWith(keys: seq<string>, data: Folders, k: string): seq<string> {
    if k in data then keys else keys + [k]
  }

  /** The table after `files` are pushed onto folder `k`, created empty if absent. */
  function Appended(data: Folders, k: string, files: seq<MediaFile>): (r: Folders)
    ensures r.Keys == data.Keys + {k}
    ensures forall k' :: k' in data && k' != k ==> r[k'] == data[k']
  {
    data[k := (if k in data then data[k] else []) + files]
  }

  lemma AppendedWellKeyed(keys: seq<string>, data: Folders, k: string, files: seq<MediaFile>)
    requires WellKeyed(keys, data)
    ensures WellKeyed(KeysWith(keys, data, k), Appended(data, k, files))
  {
  }

  /** The folder list with its first record carrying `id` spliced out, if there is one. */
  function RemoveFirstWithId(s: seq<MediaFile>, id: string): seq<MediaFile> {
    match FindFirst(s, (f: MediaFile) => f.id == id)
    case None => s
    case Some(i) => s[..i] + s[i + 1..]
  }

  /** The folder list without any record carrying `id`. */
  function WithoutId(s: seq<MediaFile>, id: string): seq<MediaFile> {
    Filter(s, (f: MediaFile) => f.id != id)
  }

  /** Removing the first record with `id` removes one record exactly when one
      carries `id`, and keeps every record with another id in order. */
  lemma RemoveFirstWithIdSpec(s: seq<MediaFile>, id: string)
    ensures |RemoveFirstWithId(s, id)| ==
            if exists i :: 0 <= i < |s| && s[i].id == id then |s| - 1 else |s|
    ensures WithoutId(RemoveFirstWithId(s, id), id) == WithoutId(s, id)
  {
    var p := (f: MediaFile) => f.id != id;
    match FindFirst(s, (f: MediaFile) => f.id == id)
    case None =>
    case Some(i) =>
      assert s == s[..i] + ([s[i]] + s[i + 1..]);
      FilterConcat(s[..i], [s[i]] + s[i + 1..], p);
      FilterConcat([s[i]], s[i + 1..], p);
      assert Filter([s[i]], p) == [];
      FilterConcat(s[..i], s[i + 1..], p);
      assert RemoveFirstWithId(s, id) == s[..i] + s[i + 1..];
  }

  /** Every folder with its first record carrying `id` removed. */
  function Removed(data: Folders, id: string): (r: Folders)
    ensures r.Keys == data.Keys
  {
    map k | k in data :: RemoveFirstWithId(data[k], id)
  }

  /** The table after `updateFile(id, rec)`. */
  function Updated(data: Folders, id: string, rec: MediaFile): Folders {
    Appended(Removed(data, id), Lower(rec.folder), [rec])
  }

  /** The table after `deleteFile(id)`. */
  function DeletedAll(data: Folders, id: string): (r: Folders)
    ensures r.Keys == data.Keys
  {
    map k | k in data :: WithoutId(data[k], id)
  }

  /** After an update the record is the last entry of the folder named by its
      lower-cased `folder`, and every folder lost at most one record. */
  lemma UpdatedMovesRecord(data: Folders, id: string, rec: MediaFile)
    ensures var r := Updated(data, id, rec);
            var nf := Lower(rec.folder);
            nf in r && |r[nf]| > 0 && r[nf][|r[nf]| - 1] == rec
    ensures forall k :: k in data && k != Lower(rec.folder) ==>
              |data[k]| - 1 <= |Updated(data, id, rec)[k]| <= |data[k]|
  {
    forall k | k in data
      ensures |data[k]| - 1 <= |Removed(data, id)[k]| <= |data[k]|
    {
      RemoveFirstWithIdSpec(data[k], id);
    }
  }

  /** When no record carries `id`, an update just files the record. */
  lemma UpdateOfAbsentIdAdds(data: Folders, id: string, rec: MediaFile)
    requires forall k :: k in data ==> forall i :: 0 <= i < |data[k]| ==> data[k][i].id != id
    ensures Updated(data, id, rec) == Appended(data, Lower(rec.folder), [rec])
  {
    assert Removed(data, id) == data;
  }

  /** Deleting leaves no record with `id` and keeps every other record in order. */
  lemma DeletedAllSpec(data: Folders, id: string)
    ensures forall k :: k in DeletedAll(data, id) ==>
              forall x :: x in DeletedAll(data, id)[k] ==> x.id != id
    ensures forall k :: k in data ==>
              forall x :: x in data[k] && x.id != id ==> x in DeletedAll(data, id)[k]
  {
    forall k, x | k in data && x in data[k] && x.id != id
      ensures x in DeletedAll(data, id)[k]
    {
      FilterKeeps(data[k], (f: MediaFile) => f.id != id, x);
    }
  }

  /** Deleting twice is deleting once. */
  lemma DeletedAllIdempotent(data: Folders, id: string)
    ensures DeletedAll(DeletedAll(data, id), id) == DeletedAll(data, id)
  {
    forall k | k in data
      ensures WithoutId(WithoutId(data[k], id), id) == WithoutId(data[k], id)
    {
      FilterIdempotent(data[k], (f: MediaFile) => f.id != id);
    }
  }

  class FileStorage {
    var keys: seq<string>
    var data: Folders

    ghost predicate Valid()
      reads this
    {
      WellKeyed(keys, data)
    }

    /** An empty store (nothing was persisted before). */
    constructor ()
      ensures Valid() && keys == [] && data == map[]
    {
      keys := [];
      data := map[];
    }

    /** Every stored record, folder after folder in key order. */
    function AllFiles(): seq<MediaFile>
      reads this
      requires Valid()
    {
      Flatten(keys, data)
    }

    /** `getAllFiles`: accumulates the folders one by one. */
    method GetAllFiles() returns (all: seq<MediaFile>)
      requires Valid()
      ensures all == AllFiles()
      ensures |all| == TotalCount(keys, data)
      ensures forall x :: x in all <==> exists k :: k in data && x in data[k]
    {
      all := [];
      var i := 0;
      while i < |keys|
        invariant 0 <= i <= |keys|
        invariant all == Flatten(keys[..i], data)
      {
        assert keys[..i + 1][..i] == keys[..i];
        all := all + data[keys[i]];
        i := i + 1;
      }
      assert keys[..|keys|] == keys;
      FlattenLength(keys, data);
      forall x ensures x in all <==> exists k :: k in data && x in data[k] {
        FlattenMembership(keys, data, x);
      }
    }

    /** `getFilesByFolder`: the folder named by the lower-cased argument, or
        the empty list for a folder never created. */
    function FilesByFolder(folder: string): (r: seq<MediaFile>)
      reads this
      requires Valid()
      ensures Lower(folder) !in data ==> r == []
      ensures Lower(folder) in data ==> r == data[Lower(folder)]
      ensures forall x :: x in r ==> x in AllFiles()
    {
      var k := Lower(folder);
      if k in data then
        FlattenHolds(keys, data, k);
        data[k]
      else []
    }

    /** `getFilesByClient`: the records of one client, in `getAllFiles` order. */
    function FilesByClient(client: string): (r: seq<MediaFile>)
      reads this
      requires Valid()
      ensures forall x :: x in r <==> x in AllFiles() && x.client == client
    {
      var p := (f: MediaFile) => f.client == client;
      FilterExactly(AllFiles(), p);
      Filter(AllFiles(), p)
    }

    /** `checkFileExists`: some record of the (lower-cased) folder has exactly that name. */
    function CheckFileExists(fileName: string, folder: string): (r: bool)
      reads this
      requires Valid()
      ensures r <==> exists i :: 0 <= i < |FilesByFolder(folder)| &&
                                 FilesByFolder(folder)[i].name == fileName
    {
      Any(FilesByFolder(folder), (f: MediaFile) => f.name == fileName)
    }

    /** `addFiles`: push the records onto the lower-cased folder, creating it if absent. */
    method AddFiles(folder: string, files: seq<MediaFile>)
      requires Valid()
      modifies this
      ensures Valid()
      ensures keys == KeysWith(old(keys), old(data), Lower(folder))
      ensures data == Appended(old(data), Lower(folder), files)
      ensures FilesByFolder(folder) == old(FilesByFolder(folder)) + files
      ensures |AllFiles()| == |old(AllFiles())| + |files|
      ensures Lower(folder) !in old(data) ==> AllFiles() == old(AllFiles()) + files
    {
      var folderKey := Lower(folder);
      ghost var d0, k0 := data, keys;
      if folderKey !in data {
        data := data[folderKey := []];
        keys := keys + [folderKey];
      }
      data := data[folderKey := data[folderKey] + files];
      assert keys == KeysWith(k0, d0, folderKey);
      assert data == Appended(d0, folderKey, files);
      AppendedWellKeyed(k0, d0, folderKey, files);
      AddedCount(k0, d0, folderKey, files);
      assert old(AllFiles()) == Flatten(k0, d0);
      assert old(FilesByFolder(folder)) == if folderKey in d0 then d0[folderKey] else [];
    }

    /** `updateFile`: splice the first record with the id out of every folder,
        then push the new record onto the folder named by its lower-cased `folder`,
        creating it if absent, which are the steps of `addFiles`. */
    method UpdateFile(fileId: string, updatedFile: MediaFile)
      requires Valid()
      modifies this
      ensures Valid()
      ensures keys == KeysWith(old(keys), old(data), Lower(updatedFile.folder))
      ensures data == Updated(old(data), fileId, updatedFile)
      ensures var r := FilesByFolder(updatedFile.folder);
              |r| > 0 && r[|r| - 1] == updatedFile
    {
      SpliceFirstWithId(fileId);
      ghost var d0 := data;
      assert d0.Keys == old(data).Keys;
      AddFiles(updatedFile.folder, [updatedFile]);
    }

    /** The `forEach` of `updateFile`: in every folder, splice out the first
        record carrying the id. */
    method SpliceFirstWithId(fileId: string)
      requires Valid()
      modifies this
      ensures Valid()
      ensures keys == old(keys)
      ensures data == Removed(old(data), fileId)
    {
      var ks := keys;
      var i := 0;
      while i < |ks|
        invariant 0 <= i <= |ks|
        invariant keys == ks == old(keys)
        invariant data.Keys == old(data).Keys
        invariant forall j :: 0 <= j < i ==> data[ks[j]] == RemoveFirstWithId(old(data)[ks[j]], fileId)
        invariant forall j :: i <= j < |ks| ==> data[ks[j]] == old(data)[ks[j]]
      {
        assert forall j :: 0 <= j < |ks| && j != i ==> ks[j] != ks[i];
        var folder := ks[i];
        var index := FindFirst(data[folder], (f: MediaFile) => f.id == fileId);
        if index.Some? {
          data := data[folder := data[folder][..index.value] + data[folder][index.value + 1..]];
        }
        i := i + 1;
      }
      forall k | k in data
        ensures data[k] == Removed(old(data), fileId)[k]
      {
        var j :| 0 <= j < |ks| && ks[j] == k;
      }
    }

    /** `deleteFile`: every folder keeps only the records with another id. */
    method DeleteFile(fileId: string)
      requires Valid()
      modifies this
      ensures Valid()
      ensures keys == old(keys)
      ensures data == DeletedAll(old(data), fileId)
    {
      var ks := keys;
      var i := 0;
      while i < |ks|
        invariant 0 <= i <= |ks|
        invariant keys == ks == old(keys)
        invariant data.Keys == old(data).Keys
        invariant forall j :: 0 <= j < i ==> data[ks[j]] == WithoutId(old(data)[ks[j]], fileId)
        invariant forall j :: i <= j < |ks| ==> data[ks[j]] == old(data)[ks[j]]
      {
        assert forall j :: 0 <= j < |ks| && j != i ==> ks[j] != ks[i];
        var folder := ks[i];
        data := data[folder := Filter(data[folder], (f: MediaFile) => f.id != fileId)];
        i := i + 1;
      }
      forall k | k in data
        ensures data[k] == DeletedAll(old(data), fileId)[k]
      {
        var j :| 0 <= j < |ks| && ks[j] == k;
      }
    }
  }

  /** Appending `files` to one folder grows the concatenation by `files`, and when
      the folder is new they come last. */
  lemma AddedCount(keys: seq<string>, data: Folders, k: string, files: seq<MediaFile>)
    requires WellKeyed(keys, data)
    ensures |Flatten(KeysWith(keys, data, k), Appended(data, k, files))| ==
            |Flatten(keys, data)| + |files|
    ensures k !in data ==>
              Flatten(KeysWith(keys, data, k), Appended(data, k, files)) == Flatten(keys, data) + files
  {
    var d' := Appended(data, k, files);
    if k !in data {
      var ks' := keys + [k];
      assert ks'[..|ks'| - 1] == keys;
      assert forall k' :: k' in keys ==> k' in data && k' in d' && data[k'] == d'[k'];
      FlattenFrame(keys, data, d');
      assert d'[k] == files;
      assert Flatten(ks', d') == Flatten(keys, d') + d'[k];
    } else {
      assert k in keys;
      assert |d'[k]| == |data[k]| + |files|;
      FlattenLength(keys, data);
      FlattenLength(keys, d');
      CountBump(keys, data, d', k, |files|);
    }
  }

  /** Growing one listed folder by `n` grows the total by `n`. */
  lemma {:induction false} CountBump(keys: seq<string>, d1: Folders, d2: Folders, k: string, n: nat)
    requires forall i, j :: 0 <= i < j < |keys| ==> keys[i] != keys[j]
    requires forall k' :: k' in keys ==> k' in d1 && k' in d2
    requires forall k' :: k' in keys && k' != k ==> d1[k'] == d2[k']
    requires k in keys && |d2[k]| == |d1[k]| + n
    ensures TotalCount(keys, d2) == TotalCount(keys, d1) + n
  {
    var init := keys[..|keys| - 1];
    var last := keys[|keys| - 1];
    if last == k {
      assert k !in init;
      FlattenLength(init, d1);
      FlattenLength(init, d2);
      FlattenFrame(init, d1, d2);
    } else {
      assert k in init;
      CountBump(init, d1, d2, k, n);
    }
  }
}
