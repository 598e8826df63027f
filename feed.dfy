/**
 * The home screen's feed: `items(sampleVideoData) { videoData -> VideoThumbnailItem(videoData) }`
 * inside `YoutubeUI` gives one card per record, in list order.
 */
module Feed {

  import opened Videos
  import opened Thumbnail

  /** The cards of a feed: one per record, in order, none dropped, merged or reordered. */
  function RenderFeed(videos: seq<VideoData>): (cards: seq<Card>)
    ensures |cards| == |videos|
    ensures forall i :: 0 <= i < |videos| ==> cards[i] == ThumbnailItem(videos[i])
  {
    if videos == [] then [] else [ThumbnailItem(videos[0])] + RenderFeed(videos[1..])
  }

  /** Rendering a concatenation renders each part in turn. */
  lemma RenderFeedAppend(front: seq<VideoData>, back: seq<VideoData>)
    ensures RenderFeed(front + back) == RenderFeed(front) + RenderFeed(back)
  {
  }

  /**
   * The sample feed shows six cards; the repeated record appears twice, and
   * each subtitle carries its channel and truncated count.
   */
  lemma SampleFeed(res: Drawables)
    ensures var cards := RenderFeed(SampleVideoData(res));
      |cards| == 6
      && cards[0] == cards[3] && cards[2] == cards[4]
      && cards[0].subtitle == "Nasheeed" + SEPARATOR + "19M views"
      && cards[1].subtitle == "DIY Toys" + SEPARATOR + "24M views"
      && cards[5].subtitle == "Finaus" + SEPARATOR + "24M views"
  {
    SampleCountExamples();
  }
}
