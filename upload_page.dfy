/**
 * The local upload page: client sign-in against the registered clients, the
 * prefix stamped on every uploaded file name, the scan for a name already
 * present in the target folder, and the upload itself, which optionally
 * replaces the existing record and then files the new records in the local
 * store. Record ids (`Date.now()`, `Math.random()`) and the data URLs read
 * from the files are parameters.
 */
module LocalUpload {
  import opened Seqs
  import opened Text
  import opened Types
  import opened FileStore
  import ClientManager

  /** Sign-in succeeds when some registered client has exactly the typed name
      and password. */
  function CanLogIn(clients: seq<Client>, name: string, password: string): (r: bool)
    ensures r <==> exists i :: 0 <= i < |clients| && clients[i].name == name && clients[i].password == password
  {
    Any(clients, (c: Client) => c.name == name && c.password == password)
  }

  /** The prefix of the signed-in client: the prefix of the first client with
      that name when it is non-empty, otherwise the first three characters of
      the name upper-cased. */
  function ClientPrefix(clients: seq<Client>, clientName: string): (r: string)
    ensures forall i :: 0 <= i < |clients| && clients[i].name == clientName &&
                        (forall j :: 0 <= j < i ==> clients[j].name != clientName) ==>
                          r == (if clients[i].prefix != "" then clients[i].prefix
                                else ClientManager.ShortPrefix(clientName))
    ensures (forall i :: 0 <= i < |clients| ==> clients[i].name != clientName) ==>
              r == ClientManager.ShortPrefix(clientName)
  {
    match FindFirst(clients, (c: Client) => c.name == clientName)
    case Some(i) =>
      if clients[i].prefix != "" then clients[i].prefix else ClientManager.ShortPrefix(clientName)
    case None => ClientManager.ShortPrefix(clientName)
  }

  /** The stored name of an uploaded file: `prefix_name`. */
  function PrefixedName(prefix: string, name: string): (r: string)
    ensures |r| == |prefix| + 1 + |name|
    ensures StartsWith(r, prefix + "_") && EndsWith(r, name)
  {
    prefix + "_" + name
  }

  /** Under one prefix, different file names give different stored names. */
  lemma PrefixedNameInjective(prefix: string, a: string, b: string)
    requires PrefixedName(prefix, a) == PrefixedName(prefix, b)
    ensures a == b
  {
    var n := |prefix| + 1;
    assert a == PrefixedName(prefix, a)[n..];
    assert b == PrefixedName(prefix, b)[n..];
  }

  /** The stored names of a selection, in selection order. */
  function StoredNames(prefix: string, files: seq<FileInfo>): (r: seq<string>)
    ensures |r| == |files|
    ensures forall i :: 0 <= i < |files| ==> r[i] == PrefixedName(prefix, files[i].name)
  {
    seq(|files|, i requires 0 <= i < |files| => PrefixedName(prefix, files[i].name))
  }

  const NoAnimation: string := "none"

  /** The record built for one file: typed video exactly when the mime type is a
      video type (image otherwise), filed under the lower-cased folder, visible,
      and animated with the chosen animation only when it is an image type. */
  function NewRecord(file: FileInfo, prefix: string, folder: string, client: string,
                     id: string, url: string, animation: string): (r: MediaFile)
    ensures r.id == id && r.url == url && r.client == client && r.size == file.size
    ensures r.name == PrefixedName(prefix, file.name) && r.originalName == file.name
    ensures r.kind.Some? && (r.kind == Some(Video) <==> StartsWith(file.mimeType, "video/"))
    ensures r.folder == Lower(folder) && !r.hidden
    ensures StartsWith(file.mimeType, "image/") ==> r.animation == animation
    ensures !StartsWith(file.mimeType, "image/") ==> r.animation == NoAnimation
  {
    MediaFile(id, PrefixedName(prefix, file.name), file.name,
              Some(if StartsWith(file.mimeType, "video/") then Video else Image),
              "", Lower(folder), client, url, file.size, false,
              if StartsWith(file.mimeType, "image/") then animation else NoAnimation, "", 0)
  }

  /** The records built for the whole selection, in selection order. */
  function NewRecords(files: seq<FileInfo>, prefix: string, folder: string, client: string,
                      ids: seq<string>, urls: seq<string>, animation: string): (r: seq<MediaFile>)
    requires |ids| == |files| && |urls| == |files|
    ensures |r| == |files|
    ensures forall i :: 0 <= i < |r| ==>
              r[i] == NewRecord(files[i], prefix, folder, client, ids[i], urls[i], animation)
  {
    seq(|files|, i requires 0 <= i < |files| =>
      NewRecord(files[i], prefix, folder, client, ids[i], urls[i], animation))
  }

  /** The record a replacing upload removes: the first stored record with the
      stored name, filed under the folder. */
  function SlotTest(name: string, folder: string): MediaFile -> bool {
    (f: MediaFile) => f.name == name && f.folder == folder
  }

  /** One replacement: delete the first record found in that slot, if any. */
  function ReplaceOne(keys: seq<string>, data: Folders, name: string, folder: string): (r: Folders)
    requires forall k :: k in keys ==> k in data
    ensures r.Keys == data.Keys
    ensures Find(Flatten(keys, data), SlotTest(name, folder)).None? ==> r == data
    ensures var found := Find(Flatten(keys, data), SlotTest(name, folder));
      found.Some? ==>
        (forall k :: k in r ==> forall x :: x in r[k] ==> x.id != found.value.id) &&
        (forall k :: k in data ==> forall x :: x in data[k] && x.id != found.value.id ==> x in r[k])
  {
    match Find(Flatten(keys, data), SlotTest(name, folder))
    case None => data
    case Some(occupant) =>
      DeletedAllSpec(data, occupant.id);
      DeletedAll(data, occupant.id)
  }

  /** The replacements for the first files of the selection, in order. */
  function AfterReplacements(keys: seq<string>, data: Folders, names: seq<string>, folder: string): (r: Folders)
    requires forall k :: k in keys ==> k in data
    ensures r.Keys == data.Keys
    decreases |names|
  {
    if names == [] then data
    else
      var before := AfterReplacements(keys, data, names[..|names| - 1], folder);
      ReplaceOne(keys, before, names[|names| - 1], folder)
  }

  /** The record a replacement removes is the first one, in stored order, with
      the slot's name and folder; afterwards no folder holds a record with its
      id, and every record with another id stays where it was. */
  lemma ReplaceOneRemovesOccupant(keys: seq<string>, data: Folders, name: string, folder: string)
    requires forall k :: k in keys ==> k in data
    requires Find(Flatten(keys, data), SlotTest(name, folder)).Some?
    ensures var all := Flatten(keys, data);
      var occupant := Find(all, SlotTest(name, folder)).value;
      var r := ReplaceOne(keys, data, name, folder);
      occupant.name == name && occupant.folder == folder &&
      (exists i :: 0 <= i < |all| && all[i] == occupant &&
         forall j :: 0 <= j < i ==> !(all[j].name == name && all[j].folder == folder)) &&
      (forall k :: k in r ==> forall x :: x in r[k] ==> x.id != occupant.id) &&
      (forall k :: k in data ==> forall x :: x in data[k] && x.id != occupant.id ==> x in r[k])
  {
    var all := Flatten(keys, data);
    var occupant := Find(all, SlotTest(name, folder)).value;
    var i :| 0 <= i < |all| && all[i] == occupant &&
             forall j :: 0 <= j < i ==> !SlotTest(name, folder)(all[j]);
    DeletedAllSpec(data, occupant.id);
  }

  /** One more name is one more replacement on top of the earlier ones. */
  lemma ReplacementsStep(keys: seq<string>, data: Folders, names: seq<string>, i: nat, folder: string)
    requires forall k :: k in keys ==> k in data
    requires i < |names|
    ensures AfterReplacements(keys, data, names[..i + 1], folder) ==
            ReplaceOne(keys, AfterReplacements(keys, data, names[..i], folder), names[i], folder)
  {
    assert names[..i + 1][..i] == names[..i];
  }

  /** One pass of that loop: find the record in the slot among all records and
      delete every record with its id. */
  method ReplaceSlot(store: FileStorage, name: string, folder: string)
    requires store.Valid()
    modifies store
    ensures store.Valid() && store.keys == old(store.keys)
    ensures store.data == ReplaceOne(old(store.keys), old(store.data), name, folder)
  {
    var all := store.GetAllFiles();
    var existing := Find(all, SlotTest(name, folder));
    if existing.Some? {
      store.DeleteFile(existing.value.id);
    }
  }

  /** The replacing half of `processUpload`'s loop: for each stored name in
      order, look the slot up among all records as they now stand and delete
      the record found there. */
  method ReplaceExisting(store: FileStorage, names: seq<string>, folder: string)
    requires store.Valid()
    modifies store
    ensures store.Valid() && store.keys == old(store.keys)
    ensures store.data == AfterReplacements(old(store.keys), old(store.data), names, folder)
  {
    ghost var keys0, data0 := store.keys, store.data;
    var i := 0;
    while i < |names|
      invariant 0 <= i <= |names|
      invariant store.Valid() && store.keys == keys0
      invariant forall k :: k in keys0 ==> k in data0
      invariant store.data == AfterReplacements(keys0, data0, names[..i], folder)
    {
      ReplaceSlot(store, names[i], folder);
      ReplacementsStep(keys0, data0, names, i, folder);
      i := i + 1;
    }
    assert names[..i] == names;
  }

  /** The store half of `processUpload`: the replacements, when asked for,
      then the new records pushed onto the (lower-case) target folder. */
  method FileRecords(store: FileStorage, replace: bool, names: seq<string>, folder: string,
                     records: seq<MediaFile>)
    requires store.Valid() && Lower(folder) == folder
    modifies store
    ensures store.Valid()
    ensures store.keys == KeysWith(old(store.keys), old(store.data), folder)
    ensures var replaced := if replace then AfterReplacements(old(store.keys), old(store.data), names, folder)
                            else old(store.data);
      store.data == Appended(replaced, folder, records)
  {
    if replace {
      ReplaceExisting(store, names, folder);
    }
    assert folder in store.data <==> folder in old(store.data);
    store.AddFiles(folder, records);
  }

  /** The store work of `processUpload` for one selection: the records built
      for the files, filed in the lower-cased folder after the optional
      replacements, and the table reloaded with `getAllFiles`. */
  method UploadSelection(store: FileStorage, replace: bool, files: seq<FileInfo>, prefix: string,
                         selectedFolder: string, client: string, ids: seq<string>, urls: seq<string>,
                         animation: string)
    returns (records: seq<MediaFile>, all: seq<MediaFile>)
    requires store.Valid() && |ids| == |files| && |urls| == |files|
    modifies store
    ensures store.Valid() && all == store.AllFiles()
    ensures records == NewRecords(files, prefix, selectedFolder, client, ids, urls, animation)
    ensures store.keys == KeysWith(old(store.keys), old(store.data), Lower(selectedFolder))
    ensures replace ==>
              store.data == Appended(AfterReplacements(old(store.keys), old(store.data),
                                                       StoredNames(prefix, files), Lower(selectedFolder)),
                                     Lower(selectedFolder), records)
    ensures !replace ==> store.data == Appended(old(store.data), Lower(selectedFolder), records)
  {
    LowerIdempotent(selectedFolder);
    records := NewRecords(files, prefix, selectedFolder, client, ids, urls, animation);
    FileRecords(store, replace, StoredNames(prefix, files), Lower(selectedFolder), records);
    all := store.GetAllFiles();
  }

  datatype UploadOutcome =
    | MissingInput          // no folder chosen or no file selected
    | Conflict(index: nat)  // the first file whose stored name is taken; nothing written
    | Uploaded(records: seq<MediaFile>)

  class UploadPage {
    var clients: seq<Client>
    var clientName: string
    var password: string
    var isLoggedIn: bool
    var selectedFolder: string
    var files: seq<FileInfo>
    var selectedAnimation: string
    var conflictFile: Option<(FileInfo, nat)>
    var uploadedFiles: seq<MediaFile>
    var isUploading: bool
    const store: FileStorage

    ghost predicate Valid()
      reads this, store
    {
      store.Valid()
    }

    constructor (store: FileStorage, clients: seq<Client>)
      requires store.Valid()
      ensures Valid() && this.store == store && this.clients == clients
      ensures clientName == "" && password == "" && !isLoggedIn
      ensures selectedFolder == "" && files == [] && selectedAnimation == "fade"
      ensures conflictFile.None? && uploadedFiles == [] && !isUploading
    {
      this.store := store;
      this.clients := clients;
      clientName := "";
      password := "";
      isLoggedIn := false;
      selectedFolder := "";
      files := [];
      selectedAnimation := "fade";
      conflictFile := None;
      uploadedFiles := [];
      isUploading := false;
    }

    /** `handleLogin`: sign in when a client has exactly the typed name and
        password; a failed attempt changes nothing. */
    method HandleLogin()
      modifies this
      ensures isLoggedIn == (old(isLoggedIn) || CanLogIn(clients, clientName, password))
      ensures unchanged(this`clients, this`clientName, this`password, this`selectedFolder,
                        this`files, this`selectedAnimation, this`conflictFile, this`uploadedFiles,
                        this`isUploading)
    {
      if CanLogIn(clients, clientName, password) {
        isLoggedIn := true;
      }
    }

    /** `handleFileSelect`: the chosen files replace the selection. */
    method HandleFileSelect(chosen: Option<seq<FileInfo>>)
      modifies this
      ensures chosen.Some? ==> files == chosen.value
      ensures chosen.None? ==> files == old(files)
      ensures unchanged(this`clients, this`clientName, this`password, this`isLoggedIn,
                        this`selectedFolder, this`selectedAnimation, this`conflictFile,
                        this`uploadedFiles, this`isUploading)
    {
      if chosen.Some? {
        files := chosen.value;
      }
    }

    /** `checkFileConflict`: the stored name is already taken in the target folder. */
    function HasConflict(name: string, prefix: string): bool
      reads this, store
      requires Valid()
    {
      store.CheckFileExists(PrefixedName(prefix, name), Lower(selectedFolder))
    }

    /** The conflict scan of `handleUpload`: the first selected file whose
        stored name is taken, if any. */
    method FindConflict(prefix: string) returns (conflict: Option<nat>)
      requires Valid()
      ensures conflict.Some? ==>
                conflict.value < |files| && HasConflict(files[conflict.value].name, prefix) &&
                forall j :: 0 <= j < conflict.value ==> !HasConflict(files[j].name, prefix)
      ensures conflict.None? ==> forall j :: 0 <= j < |files| ==> !HasConflict(files[j].name, prefix)
    {
      var i := 0;
      while i < |files|
        invariant 0 <= i <= |files|
        invariant forall j :: 0 <= j < i ==> !HasConflict(files[j].name, prefix)
      {
        if HasConflict(files[i].name, prefix) {
          return Some(i);
        }
        i := i + 1;
      }
      return None;
    }

    /** `handleUpload`: report missing input with nothing changed; otherwise
        stop at the first file whose stored name is taken and open the conflict
        dialog with nothing written; otherwise, no name being taken, upload
        without replacing. */
    method HandleUpload(ids: seq<string>, urls: seq<string>) returns (outcome: UploadOutcome)
      requires Valid() && |ids| == |files| && |urls| == |files|
      modifies this`conflictFile, this`files, this`selectedFolder, this`selectedAnimation,
               this`uploadedFiles, this`isUploading, store
      ensures Valid()
      ensures outcome.MissingInput? <==> old(selectedFolder) == "" || old(files) == []
      ensures outcome.MissingInput? ==> unchanged(this, store)
      ensures outcome.Conflict? ==>
                outcome.index < |files| &&
                conflictFile == Some((files[outcome.index], outcome.index)) &&
                HasConflict(files[outcome.index].name, ClientPrefix(clients, clientName)) &&
                (forall j :: 0 <= j < outcome.index ==>
                   !HasConflict(files[j].name, ClientPrefix(clients, clientName))) &&
                unchanged(store) &&
                unchanged(this`selectedFolder, this`files, this`selectedAnimation,
                          this`uploadedFiles, this`isUploading)
      ensures outcome.Uploaded? ==>
                old(forall j :: 0 <= j < |files| ==>
                      !HasConflict(files[j].name, ClientPrefix(clients, clientName))) &&
                outcome.records == NewRecords(old(files), ClientPrefix(old(clients), old(clientName)),
                                              old(selectedFolder), old(clientName), ids, urls,
                                              old(selectedAnimation)) &&
                store.keys == KeysWith(old(store.keys), old(store.data), Lower(old(selectedFolder))) &&
                store.data == Appended(old(store.data), Lower(old(selectedFolder)), outcome.records) &&
                files == [] && selectedFolder == "" && selectedAnimation == "fade" &&
                uploadedFiles == store.AllFiles() && !isUploading &&
                conflictFile == old(conflictFile)
    {
      if selectedFolder == "" || files == [] {
        return MissingInput;
      }
      var prefix := ClientPrefix(clients, clientName);
      var conflict := FindConflict(prefix);
      if conflict.Some? {
        conflictFile := Some((files[conflict.value], conflict.value));
        return Conflict(conflict.value);
      }
      var records := ProcessUpload(false, ids, urls);
      outcome := Uploaded(records);
    }

    /** The conflict dialog's "replace": close it and upload with replacement. */
    method Replace(ids: seq<string>, urls: seq<string>) returns (records: seq<MediaFile>)
      requires Valid() && |ids| == |files| && |urls| == |files|
      modifies this, store
      ensures Valid() && conflictFile.None?
      ensures records == NewRecords(old(files), ClientPrefix(old(clients), old(clientName)),
                                    old(selectedFolder), old(clientName), ids, urls, old(selectedAnimation))
      ensures var folder := Lower(old(selectedFolder));
        var names := StoredNames(ClientPrefix(old(clients), old(clientName)), old(files));
        store.keys == KeysWith(old(store.keys), old(store.data), folder) &&
        store.data == Appended(AfterReplacements(old(store.keys), old(store.data), names, folder),
                               folder, records)
      ensures files == [] && selectedFolder == "" && selectedAnimation == "fade"
      ensures uploadedFiles == store.AllFiles() && !isUploading
      ensures unchanged(this`clients, this`clientName, this`password, this`isLoggedIn)
    {
      conflictFile := None;
      records := ProcessUpload(true, ids, urls);
    }

    /** The conflict dialog's "cancel". */
    method CancelConflict()
      modifies this
      ensures conflictFile.None?
      ensures unchanged(this`clients, this`clientName, this`password, this`isLoggedIn,
                        this`selectedFolder, this`files, this`selectedAnimation,
                        this`uploadedFiles, this`isUploading)
    {
      conflictFile := None;
    }

    /** `processUpload`: for each selected file in order, when replacing, delete
        the first stored record with the same stored name in the target folder;
        build the new records; file them all in the target folder; then clear
        the selection, the folder and the animation choice. */
    method ProcessUpload(replace: bool, ids: seq<string>, urls: seq<string>) returns (records: seq<MediaFile>)
      requires Valid() && |ids| == |files| && |urls| == |files|
      modifies this`files, this`selectedFolder, this`selectedAnimation, this`uploadedFiles,
               this`isUploading, store
      ensures Valid()
      ensures records == NewRecords(old(files), ClientPrefix(old(clients), old(clientName)),
                                    old(selectedFolder), old(clientName), ids, urls, old(selectedAnimation))
      ensures store.keys == KeysWith(old(store.keys), old(store.data), Lower(old(selectedFolder)))
      ensures var folder := Lower(old(selectedFolder));
        var names := StoredNames(ClientPrefix(old(clients), old(clientName)), old(files));
        replace ==>
          store.data == Appended(AfterReplacements(old(store.keys), old(store.data), names, folder),
                                 folder, records)
      ensures !replace ==> store.data == Appended(old(store.data), Lower(old(selectedFolder)), records)
      ensures files == [] && selectedFolder == "" && selectedAnimation == "fade"
      ensures uploadedFiles == store.AllFiles() && !isUploading
    {
      isUploading := true;
      var all;
      records, all := UploadSelection(store, replace, files, ClientPrefix(clients, clientName),
                                      selectedFolder, clientName, ids, urls, selectedAnimation);
      FinishUpload(all);
    }

    /** The end of `processUpload`: clear the form, show the reloaded list and
        drop the busy flag. */
    method FinishUpload(all: seq<MediaFile>)
      modifies this`files, this`selectedFolder, this`selectedAnimation, this`uploadedFiles,
               this`isUploading
      ensures files == [] && selectedFolder == "" && selectedAnimation == "fade"
      ensures uploadedFiles == all && !isUploading
    {
      files, selectedFolder, selectedAnimation := [], "", "fade";
      uploadedFiles, isUploading := all, false;
    }

    /** `removeFile`: drop the selected file at `index`. */
    method RemoveFile(index: int)
      modifies this
      ensures files == RemoveAt(old(files), index)
      ensures unchanged(this`clients, this`clientName, this`password, this`isLoggedIn,
                        this`selectedFolder, this`selectedAnimation, this`conflictFile,
                        this`uploadedFiles, this`isUploading)
    {
      files := RemoveAt(files, index);
    }
  }
}
