/**
 * The folder overview of the local admin page: the eight folders in fixed
 * order, per-folder counts by media kind, and the folder whose contents are
 * listed.
 */
module MediaFolders {
  import opened Seqs
  import opened Types

  /** `FOLDER_NAMES`: the weekdays from Monday, then the every-day folder. */
  const FolderNames: seq<string> :=
    ["segunda", "terça", "quarta", "quinta", "sexta", "sábado", "domingo", "todos"]

  /** `getFolderStats`: the record count and the counts of records typed as
      image and as video. */
  function KindStats(folder: MediaFolder): (r: FolderStats)
    ensures r.total == |folder.media|
    ensures r.images == Count(folder.media, TypedImage)
    ensures r.videos == Count(folder.media, TypedVideo)
    ensures r.images + r.videos <= r.total
    ensures (forall i :: 0 <= i < |folder.media| ==> folder.media[i].kind.Some?) ==>
              r.images + r.videos == r.total
  {
    FilterDisjointCounts(folder.media, TypedImage, TypedVideo);
    TypedIsImageOrVideo(folder.media);
    FilterCount(folder.media, TypedImage);
    FilterCount(folder.media, TypedVideo);
    FolderStats(|folder.media|, |Filter(folder.media, TypedImage)|, |Filter(folder.media, TypedVideo)|)
  }

  predicate TypedImage(m: MediaFile) { m.kind == Some(Image) }
  predicate TypedVideo(m: MediaFile) { m.kind == Some(Video) }

  lemma TypedIsImageOrVideo(media: seq<MediaFile>)
    ensures (forall i :: 0 <= i < |media| ==> media[i].kind.Some?) ==>
              forall i :: 0 <= i < |media| ==> TypedImage(media[i]) || TypedVideo(media[i])
  {
    forall i | 0 <= i < |media| && media[i].kind.Some?
      ensures TypedImage(media[i]) || TypedVideo(media[i])
    {
      match media[i].kind.value
      case Image =>
      case Video =>
    }
  }

  const NoStats: FolderStats := FolderStats(0, 0, 0)

  /** The folder the name selects: the first one carrying that name. */
  function FolderNamed(folders: seq<MediaFolder>, name: string): (r: Option<MediaFolder>)
    ensures r.None? <==> forall i :: 0 <= i < |folders| ==> folders[i].name != name
    ensures r.Some? ==> exists i :: 0 <= i < |folders| && folders[i] == r.value &&
                          r.value.name == name &&
                          forall j :: 0 <= j < i ==> folders[j].name != name
  {
    match FindFirst(folders, (f: MediaFolder) => f.name == name)
    case None => None
    case Some(i) => Some(folders[i])
  }

  /** The stats shown on a folder's card: zeros when no folder has the name. */
  function StatsFor(folders: seq<MediaFolder>, name: string): (r: FolderStats)
    ensures (forall i :: 0 <= i < |folders| ==> folders[i].name != name) ==> r == NoStats
    ensures forall i :: 0 <= i < |folders| && folders[i].name == name &&
                        (forall j :: 0 <= j < i ==> folders[j].name != name) ==>
                          r == KindStats(folders[i])
    ensures r.images + r.videos <= r.total
  {
    match FolderNamed(folders, name)
    case None => NoStats
    case Some(f) => KindStats(f)
  }

  /** The overview: one card per name of `FOLDER_NAMES`, in that order. */
  function Overview(folders: seq<MediaFolder>): (r: seq<(string, FolderStats)>)
    ensures |r| == |FolderNames|
    ensures forall i :: 0 <= i < |r| ==> r[i].0 == FolderNames[i] && r[i].1 == StatsFor(folders, FolderNames[i])
  {
    seq(|FolderNames|, i requires 0 <= i < |FolderNames| => (FolderNames[i], StatsFor(folders, FolderNames[i])))
  }

  /** The overview is always the eight cards, whatever folders were passed in. */
  lemma OverviewShape(folders: seq<MediaFolder>)
    ensures |Overview(folders)| == 8
    ensures Overview(folders)[7].0 == "todos"
    ensures Overview([])[0].1 == NoStats
  {
  }
}
