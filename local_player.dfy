/**
 * The player hook fed from the browser-local store: the same rotation as the
 * backend-fed hook, with the list re-read from the store on every refresh
 * and no `loading` flag. The weekday is a parameter.
 */
module LocalPlayer {
  import opened Seqs
  import opened Types
  import opened Rotation
  import opened FileStore

  class LocalMediaPlayer {
    var mediaFiles: seq<MediaFile>
    var currentMedia: Option<string>
    var currentMediaObj: Option<MediaFile>
    var currentIndex: nat
    var isPlaying: bool

    constructor ()
      ensures mediaFiles == [] && currentMedia == None && currentMediaObj == None
      ensures currentIndex == 0 && !isPlaying
    {
      mediaFiles := [];
      currentMedia := None;
      currentMediaObj := None;
      currentIndex := 0;
      isPlaying := false;
    }

    function CurrentDayMedia(day: Weekday): seq<MediaFile>
      reads this
    {
      Eligible(mediaFiles, day)
    }

    /** `updateMediaFiles`: the list becomes every record in the store, folder
        by folder; playback state is untouched. */
    method UpdateMediaFiles(store: FileStorage)
      requires store.Valid()
      modifies this
      ensures mediaFiles == store.AllFiles()
      ensures forall x :: x in mediaFiles <==> exists k :: k in store.data && x in store.data[k]
      ensures currentIndex == old(currentIndex) && isPlaying == old(isPlaying)
      ensures currentMedia == old(currentMedia) && currentMediaObj == old(currentMediaObj)
    {
      var files := store.GetAllFiles();
      mediaFiles := files;
    }

    /** `playNextMedia`, as in the backend-fed hook. */
    method PlayNext(day: Weekday) returns (outcome: PlayOutcome)
      modifies this
      ensures outcome == NextOutcome(old(CurrentDayMedia(day)), old(currentIndex))
      ensures currentIndex == IndexAfter(old(CurrentDayMedia(day)), old(currentIndex))
      ensures mediaFiles == old(mediaFiles)
      ensures outcome.NothingToPlay? ==>
                currentMedia == None && currentMediaObj == None && !isPlaying
      ensures outcome.Showing? ==>
                currentMedia == Some(outcome.media.url) &&
                currentMediaObj == Some(outcome.media) && isPlaying &&
                currentIndex < |CurrentDayMedia(day)|
      ensures outcome.UndefinedMedia? ==>
                currentMedia == old(currentMedia) && currentMediaObj == old(currentMediaObj) &&
                isPlaying == old(isPlaying) && currentIndex == old(currentIndex)
    {
      var available := Eligible(mediaFiles, day);
      outcome := NextOutcome(available, currentIndex);
      match outcome {
        case NothingToPlay =>
          currentMedia := None;
          currentMediaObj := None;
          isPlaying := false;
        case Showing(media) =>
          currentMedia := Some(media.url);
          currentMediaObj := Some(media);
          isPlaying := true;
          AdvanceInRange(available, currentIndex);
          currentIndex := IndexAfter(available, currentIndex);
        case UndefinedMedia =>
      }
    }

    method HandleMediaEnd(day: Weekday) returns (outcome: PlayOutcome)
      modifies this
      ensures outcome == NextOutcome(old(CurrentDayMedia(day)), old(currentIndex))
      ensures currentIndex == IndexAfter(old(CurrentDayMedia(day)), old(currentIndex))
      ensures mediaFiles == old(mediaFiles)
      ensures outcome.NothingToPlay? ==>
                currentMedia == None && currentMediaObj == None && !isPlaying
      ensures outcome.Showing? ==>
                currentMedia == Some(outcome.media.url) &&
                currentMediaObj == Some(outcome.media) && isPlaying
      ensures outcome.UndefinedMedia? ==>
                currentMedia == old(currentMedia) && currentMediaObj == old(currentMediaObj) &&
                isPlaying == old(isPlaying)
    {
      outcome := PlayNext(day);
    }

    /** The auto-start effect's guard: something is eligible and nothing is
        playing (this hook has no `loading` flag). */
    predicate ShouldAutoStart(day: Weekday)
      reads this
    {
      |CurrentDayMedia(day)| > 0 && !isPlaying
    }

    method AutoStart(day: Weekday) returns (outcome: Option<PlayOutcome>)
      modifies this
      ensures old(ShouldAutoStart(day)) <==> outcome.Some?
      ensures outcome.Some? ==>
                outcome.value == NextOutcome(old(CurrentDayMedia(day)), old(currentIndex)) &&
                currentIndex == IndexAfter(old(CurrentDayMedia(day)), old(currentIndex))
      ensures outcome.None? ==>
                currentIndex == old(currentIndex) && isPlaying == old(isPlaying) &&
                currentMedia == old(currentMedia) && currentMediaObj == old(currentMediaObj)
      ensures mediaFiles == old(mediaFiles)
      ensures outcome.Some? ==> !outcome.value.NothingToPlay?
      ensures outcome.Some? && outcome.value.Showing? ==>
                currentMedia == Some(outcome.value.media.url) &&
                currentMediaObj == Some(outcome.value.media) && isPlaying
      ensures outcome.Some? && outcome.value.UndefinedMedia? ==>
                currentMedia == old(currentMedia) && currentMediaObj == old(currentMediaObj) &&
                isPlaying == old(isPlaying)
    {
      if ShouldAutoStart(day) {
        var o := PlayNext(day);
        outcome := Some(o);
      } else {
        outcome := None;
      }
    }
  }
}
