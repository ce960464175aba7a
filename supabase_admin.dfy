/**
 * The backend-fed admin page's local rules: the six-character client prefix
 * generated from a name, the defaults filled in before a new client is sent,
 * the folder filter of the media table and the per-folder statistics. The
 * backend calls themselves are not part of this model.
 */
module SupabaseAdmin {
  import opened Seqs
  import opened Text
  import opened Types

  const PrefixLength: nat := 6
  const DefaultPassword: string := "123456"

  predicate IsLowerCase(s: string) {
    forall i :: 0 <= i < |s| ==> LowerChar(s[i]) == s[i]
  }

  /** `generatePrefix`: lower-cased, every white-space character removed, at
      most six characters kept. */
  function GeneratePrefix(name: string): (r: string)
    ensures |r| == if |StripSpaces(Lower(name))| <= PrefixLength then |StripSpaces(Lower(name))| else PrefixLength
    ensures r == StripSpaces(Lower(name))[..|r|]
    ensures forall i :: 0 <= i < |r| ==> !IsSpace(r[i])
    ensures IsLowerCase(r)
  {
    var stripped := StripSpaces(Lower(name));
    assert forall c :: c in stripped ==> LowerChar(c) == c;
    Take(stripped, PrefixLength)
  }

  /** A name with a character other than white space yields a non-empty prefix. */
  lemma GeneratePrefixNonEmpty(name: string)
    requires !IsBlank(name)
    ensures GeneratePrefix(name) != ""
  {
    BlankIffAllSpace(name);
    var i :| 0 <= i < |name| && !IsSpace(name[i]);
    LowerKeepsSpaces(name[i]);
    assert Lower(name)[i] in StripSpaces(Lower(name));
  }

  /** Generating a prefix from a generated prefix changes nothing. */
  lemma GeneratePrefixIdempotent(name: string)
    ensures GeneratePrefix(GeneratePrefix(name)) == GeneratePrefix(name)
  {
    var r := GeneratePrefix(name);
    assert Lower(r) == r;
    StripSpacesNoop(r);
  }

  /** `handleAddClient` up to the backend call: no request for a blank name;
      otherwise the form with an empty prefix replaced by the generated one and
      an empty password replaced by "123456". */
  function AddClientRequest(form: ClientForm): (r: Option<ClientForm>)
    ensures r.None? <==> IsBlank(form.name)
    ensures r.Some? ==> r.value.name == form.name && r.value.prefix != "" && r.value.password != ""
    ensures r.Some? && form.prefix != "" ==> r.value.prefix == form.prefix
    ensures r.Some? && form.prefix == "" ==> r.value.prefix == GeneratePrefix(form.name)
    ensures r.Some? && form.password != "" ==> r.value.password == form.password
    ensures r.Some? && form.password == "" ==> r.value.password == DefaultPassword
  {
    if IsBlank(form.name) then None
    else
      GeneratePrefixNonEmpty(form.name);
      Some(form.(prefix := if form.prefix != "" then form.prefix else GeneratePrefix(form.name),
                 password := if form.password != "" then form.password else DefaultPassword))
  }

  /** Typing in the name field also regenerates the prefix; the password is kept. */
  function NameEdited(form: ClientForm, name: string): (r: ClientForm)
    ensures r.name == name && r.password == form.password
    ensures r.prefix == GeneratePrefix(name)
  {
    form.(name := name, prefix := GeneratePrefix(name))
  }

  /** A client added straight after typing its name is sent with the prefix
      generated from that name. */
  lemma NameEditThenAdd(form: ClientForm, name: string)
    requires !IsBlank(name)
    ensures var r := AddClientRequest(NameEdited(form, name));
      r.Some? && r.value.prefix == GeneratePrefix(name)
  {
    GeneratePrefixNonEmpty(name);
  }

  /** `filteredMediaFiles`: every record when no folder is selected (""),
      otherwise the records filed under the selected folder. */
  function FilteredMediaFiles(files: seq<MediaFile>, selected: string): (r: seq<MediaFile>)
    ensures selected == "" ==> r == files
    ensures selected != "" ==> forall x :: x in r <==> x in files && x.folder == selected
  {
    if selected == "" then files
    else
      FilterExactly(files, (f: MediaFile) => f.folder == selected);
      Filter(files, (f: MediaFile) => f.folder == selected)
  }

  /** The folder filter keeps the table's order: filtering a concatenation is
      concatenating the filtered parts. */
  lemma FilteredKeepsOrder(a: seq<MediaFile>, b: seq<MediaFile>, selected: string)
    ensures FilteredMediaFiles(a + b, selected) ==
            FilteredMediaFiles(a, selected) + FilteredMediaFiles(b, selected)
  {
    if selected != "" {
      FilterConcat(a, b, (f: MediaFile) => f.folder == selected);
    }
  }

  /** The folder test of `getFolderStats`. */
  function InFolder(folder: string): MediaFile -> bool {
    (f: MediaFile) => f.folder == folder
  }

  /** A mime-type test: the record's type starts with `prefix`. */
  function HasMime(prefix: string): MediaFile -> bool {
    (f: MediaFile) => StartsWith(f.fileType, prefix)
  }

  /** Both tests at once: filed under `folder` and of the `prefix` mime type. */
  function InFolderWithMime(folder: string, prefix: string): MediaFile -> bool {
    (f: MediaFile) => f.folder == folder && StartsWith(f.fileType, prefix)
  }

  /** `getFolderStats`: how many records are filed under the folder, and how
      many of those have an image and a video mime type. */
  function MimeStats(files: seq<MediaFile>, folder: string): (r: FolderStats)
    ensures r.total == Count(files, InFolder(folder))
    ensures r.images == Count(files, InFolderWithMime(folder, "image/"))
    ensures r.videos == Count(files, InFolderWithMime(folder, "video/"))
    ensures r.images + r.videos <= r.total
  {
    var inFolder := Filter(files, InFolder(folder));
    var isImage := HasMime("image/");
    var isVideo := HasMime("video/");
    assert forall i :: 0 <= i < |inFolder| ==> !(isImage(inFolder[i]) && isVideo(inFolder[i])) by {
      forall i | 0 <= i < |inFolder| {
        ImageVideoDisjoint(inFolder[i].fileType);
      }
    }
    FilterDisjointCounts(inFolder, isImage, isVideo);
    FilterCount(files, InFolder(folder));
    FilterCount(inFolder, isImage);
    FilterCount(inFolder, isVideo);
    CountOfFilter(files, InFolder(folder), isImage, InFolderWithMime(folder, "image/"));
    CountOfFilter(files, InFolder(folder), isVideo, InFolderWithMime(folder, "video/"));
    FolderStats(|inFolder|, |Filter(inFolder, isImage)|, |Filter(inFolder, isVideo)|)
  }
}
