/**
 * The renderer for the record on screen: which element it emits, which CSS
 * entrance animation an image gets, and what ends the record (a timer for
 * an image, the `ended` event for a video).
 */
module Renderer {
  import opened Seqs
  import opened Text
  import opened Types

  /** `getMediaType`: the local `type` wins; otherwise the mime prefix of
      `file_type` decides; anything else is shown as an image. */
  function MediaTypeOf(f: MediaFile): (r: MediaKind)
    ensures f.kind.Some? ==> r == f.kind.value
    ensures r == Video <==>
              f.kind == Some(Video) || (f.kind.None? && StartsWith(f.fileType, "video/"))
  {
    if f.kind.Some? then f.kind.value
    else if StartsWith(f.fileType, "image/") then Image
    else if StartsWith(f.fileType, "video/") then (ImageVideoDisjoint(f.fileType); Video)
    else Image
  }

  const DefaultAnimation: string := "fade"

  /** `getAnimation`: the local `animation`, else the backend `animation_type`,
      else "fade"; an empty string counts as missing. */
  function AnimationOf(f: MediaFile): (r: string)
    ensures r != ""
    ensures f.animation != "" ==> r == f.animation
    ensures f.animation == "" && f.animationType != "" ==> r == f.animationType
    ensures f.animation == "" && f.animationType == "" ==> r == DefaultAnimation
  {
    if f.animation != "" then f.animation
    else if f.animationType != "" then f.animationType
    else DefaultAnimation
  }

  const FadeIn: string := "animate-fade-in"

  /** The CSS class for an animation name. */
  function ClassFor(animation: string): string {
    if animation == "slide-left" then "animate-slide-in-left"
    else if animation == "slide-right" then "animate-slide-in-right"
    else if animation == "zoom" then "animate-scale-in"
    else if animation == "rotate" then "animate-spin"
    else FadeIn
  }

  /** `getAnimationClass`. */
  function AnimationClass(f: MediaFile): (r: string)
    ensures r in {FadeIn, "animate-slide-in-left", "animate-slide-in-right", "animate-scale-in", "animate-spin"}
  {
    ClassFor(AnimationOf(f))
  }

  /** Only the four named animations change the class; "fade", "none" and any
      unknown name fade in, and so does a record with no animation at all. */
  lemma AnimationClassCases(f: MediaFile)
    ensures AnimationClass(f) != FadeIn <==>
              AnimationOf(f) in {"slide-left", "slide-right", "zoom", "rotate"}
    ensures f.animation == "" && f.animationType == "" ==> AnimationClass(f) == FadeIn
  {
  }

  /** The `imageDuration` state: five seconds. */
  const ImageDuration: int := 5000

  /** The delay handed to `setTimeout` for an image: the backend
      `animation_duration` unless it is 0, else five seconds. */
  function ImageDelay(f: MediaFile): (r: int)
    ensures f.animationDuration >= 0 ==> r > 0
    ensures f.animationDuration == 0 ==> r == ImageDuration
    ensures f.animationDuration != 0 ==> r == f.animationDuration
  {
    if f.animationDuration != 0 then f.animationDuration else ImageDuration
  }

  /** What ends the record on screen and calls `onMediaEnd`. */
  datatype EndTrigger = AfterTimeout(ms: int) | OnVideoEnded

  function EndTriggerOf(f: MediaFile): (r: EndTrigger)
    ensures r.OnVideoEnded? <==> MediaTypeOf(f) == Video
    ensures r.AfterTimeout? ==> r.ms == ImageDelay(f)
  {
    if MediaTypeOf(f) == Image then AfterTimeout(ImageDelay(f)) else OnVideoEnded
  }

  /** The element the renderer returns; both are keyed by the media url. */
  datatype Element =
    | VideoElement(key: string, src: string, autoPlay: bool, muted: bool, className: string)
    | ImageElement(key: string, src: string, className: string)

  const BaseClass: string := "max-w-full max-h-full object-contain"

  /** The rendered element for `media` (the url) and `mediaObj`. `mutedProp` is
      the optional `muted` prop, which the component never reads. */
  function Render(media: string, mediaObj: MediaFile, mutedProp: bool): (e: Element)
    ensures e.VideoElement? <==> MediaTypeOf(mediaObj) == Video
    ensures e.key == media && e.src == media
    ensures e.VideoElement? ==> e.muted && e.autoPlay && e.className == BaseClass
    ensures e.ImageElement? ==> e.className == BaseClass + " " + AnimationClass(mediaObj)
  {
    if MediaTypeOf(mediaObj) == Video then VideoElement(media, media, true, true, BaseClass)
    else ImageElement(media, media, BaseClass + " " + AnimationClass(mediaObj))
  }

  /** Videos always play muted: the `muted` prop changes nothing. */
  lemma MutedPropIgnored(media: string, mediaObj: MediaFile)
    ensures Render(media, mediaObj, true) == Render(media, mediaObj, false)
  {
  }

  /** The end trigger matches the element: a timer for an image element, the
      `ended` event for a video element. */
  lemma EndTriggerMatchesElement(media: string, mediaObj: MediaFile, mutedProp: bool)
    ensures Render(media, mediaObj, mutedProp).ImageElement? <==> EndTriggerOf(mediaObj).AfterTimeout?
  {
  }
}
