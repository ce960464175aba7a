/**
 * The backend-fed player hook: the fetched media list, the record on screen,
 * the rotation index and the `isPlaying`/`loading` flags, updated by the
 * hook's callbacks. The weekday (`new Date().getDay()`) and the outcome of
 * the backend fetch are parameters.
 */
module SupabasePlayer {
  import opened Seqs
  import opened Types
  import opened Rotation

  class SupabaseMediaPlayer {
    var mediaFiles: seq<MediaFile>
    var currentMedia: Option<string>      // the url on screen
    var currentMediaObj: Option<MediaFile>
    var currentIndex: nat
    var isPlaying: bool
    var loading: bool

    /** The hook's initial state: nothing fetched yet and `loading` set. */
    constructor ()
      ensures mediaFiles == [] && currentMedia == None && currentMediaObj == None
      ensures currentIndex == 0 && !isPlaying && loading
    {
      mediaFiles := [];
      currentMedia := None;
      currentMediaObj := None;
      currentIndex := 0;
      isPlaying := false;
      loading := true;
    }

    /** `getCurrentDayMedia`. */
    function CurrentDayMedia(day: Weekday): seq<MediaFile>
      reads this
    {
      Eligible(mediaFiles, day)
    }

    /** `playNextMedia`: clear the screen when nothing is eligible; otherwise
        publish the record at the rotation index and advance the index. An index
        past the end of the eligible list is the `UndefinedMedia` outcome: the
        call throws before it changes anything. */
    method PlayNext(day: Weekday) returns (outcome: PlayOutcome)
      modifies this
      ensures outcome == NextOutcome(old(CurrentDayMedia(day)), old(currentIndex))
      ensures currentIndex == IndexAfter(old(CurrentDayMedia(day)), old(currentIndex))
      ensures mediaFiles == old(mediaFiles) && loading == old(loading)
      ensures outcome.NothingToPlay? ==>
                currentMedia == None && currentMediaObj == None && !isPlaying
      ensures outcome.Showing? ==>
                currentMedia == Some(outcome.media.url) &&
                currentMediaObj == Some(outcome.media) && isPlaying &&
                currentIndex < |CurrentDayMedia(day)|
      ensures outcome.UndefinedMedia? ==>
                currentMedia == old(currentMedia) && currentMediaObj == old(currentMediaObj) &&
                isPlaying == old(isPlaying) && currentIndex == old(currentIndex)
    {
      var available := Eligible(mediaFiles, day);
      outcome := NextOutcome(available, currentIndex);
      match outcome {
        case NothingToPlay =>
          currentMedia := None;
          currentMediaObj := None;
          isPlaying := false;
        case Showing(media) =>
          currentMedia := Some(media.url);
          currentMediaObj := Some(media);
          isPlaying := true;
          AdvanceInRange(available, currentIndex);
          currentIndex := IndexAfter(available, currentIndex);
        case UndefinedMedia =>
      }
    }

    /** `handleMediaEnd`: the renderer's end-of-media signal plays the next record. */
    method HandleMediaEnd(day: Weekday) returns (outcome: PlayOutcome)
      modifies this
      ensures outcome == NextOutcome(old(CurrentDayMedia(day)), old(currentIndex))
      ensures currentIndex == IndexAfter(old(CurrentDayMedia(day)), old(currentIndex))
      ensures mediaFiles == old(mediaFiles) && loading == old(loading)
      ensures outcome.NothingToPlay? ==>
                currentMedia == None && currentMediaObj == None && !isPlaying
      ensures outcome.Showing? ==>
                currentMedia == Some(outcome.media.url) &&
                currentMediaObj == Some(outcome.media) && isPlaying
      ensures outcome.UndefinedMedia? ==>
                currentMedia == old(currentMedia) && currentMediaObj == old(currentMediaObj) &&
                isPlaying == old(isPlaying)
    {
      outcome := PlayNext(day);
    }

    /** The start of `updateMediaFiles`: `loading` is set. */
    method StartRefresh()
      modifies this
      ensures loading
      ensures mediaFiles == old(mediaFiles) && currentIndex == old(currentIndex)
      ensures currentMedia == old(currentMedia) && currentMediaObj == old(currentMediaObj)
      ensures isPlaying == old(isPlaying)
    {
      loading := true;
    }

    /** The end of `updateMediaFiles`: a successful fetch replaces the list, a
        failed one keeps it, and `loading` is cleared either way. The rotation
        index is left as it was. */
    method FinishRefresh(fetched: Option<seq<MediaFile>>)
      modifies this
      ensures !loading
      ensures mediaFiles == (if fetched.Some? then fetched.value else old(mediaFiles))
      ensures currentIndex == old(currentIndex)
      ensures currentMedia == old(currentMedia) && currentMediaObj == old(currentMediaObj)
      ensures isPlaying == old(isPlaying)
    {
      if fetched.Some? {
        mediaFiles := fetched.value;
      }
      loading := false;
    }

    /** The auto-start effect's guard: something is eligible, nothing is playing
        and no fetch is in flight. */
    predicate ShouldAutoStart(day: Weekday)
      reads this
    {
      |CurrentDayMedia(day)| > 0 && !isPlaying && !loading
    }

    /** The auto-start effect: play only when the guard holds. */
    method AutoStart(day: Weekday) returns (outcome: Option<PlayOutcome>)
      modifies this
      ensures old(ShouldAutoStart(day)) <==> outcome.Some?
      ensures outcome.Some? ==>
                outcome.value == NextOutcome(old(CurrentDayMedia(day)), old(currentIndex)) &&
                currentIndex == IndexAfter(old(CurrentDayMedia(day)), old(currentIndex))
      ensures outcome.None? ==>
                currentIndex == old(currentIndex) && isPlaying == old(isPlaying) &&
                currentMedia == old(currentMedia) && currentMediaObj == old(currentMediaObj)
      ensures mediaFiles == old(mediaFiles) && loading == old(loading)
      ensures outcome.Some? ==> !outcome.value.NothingToPlay?
      ensures outcome.Some? && outcome.value.Showing? ==>
                currentMedia == Some(outcome.value.media.url) &&
                currentMediaObj == Some(outcome.value.media) && isPlaying
      ensures outcome.Some? && outcome.value.UndefinedMedia? ==>
                currentMedia == old(currentMedia) && currentMediaObj == old(currentMediaObj) &&
                isPlaying == old(isPlaying)
    {
      if ShouldAutoStart(day) {
        var o := PlayNext(day);
        outcome := Some(o);
      } else {
        outcome := None;
      }
    }
  }

  function Clip(id: string, folder: string): MediaFile {
    MediaFile(id, id, id, None, "image/png", folder, "", id, 0, false, "", "", 0)
  }

  /** The rotation index survives a refresh. After two records have been
      fetched and the first one shown, a refresh that returns a single record
      leaves the index at 1, and the next call reads past the end of the
      eligible list. */
  method ShrinkingRefreshScenario() returns (first: PlayOutcome, second: PlayOutcome)
    ensures first == Showing(Clip("a", EveryDay))
    ensures second == UndefinedMedia
  {
    var player := new SupabaseMediaPlayer();
    player.FinishRefresh(Some([Clip("a", EveryDay), Clip("b", EveryDay)]));
    EveryDayListPlaysInFull([Clip("a", EveryDay), Clip("b", EveryDay)], 1);
    first := player.PlayNext(1);
    player.StartRefresh();
    player.FinishRefresh(Some([Clip("c", EveryDay)]));
    EveryDayListPlaysInFull([Clip("c", EveryDay)], 1);
    second := player.PlayNext(1);
  }
}
