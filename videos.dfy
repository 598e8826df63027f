/** The feed's record type and the hard-coded sample feed. */
module Videos {

  import opened KotlinInt

  /** One feed entry; `thumbnailResId` is an Android drawable resource id. */
  datatype VideoData = VideoData(thumbnailResId: Int32, title: string, channelName: string, viewCount: Int32)

  /**
   * The drawable resource ids the sample list refers to. Their values are
   * assigned by the Android build, so they are parameters here.
   */
  datatype Drawables = Drawables(thumbnail: Int32, minecraft: Int32, oil: Int32)

  /**
   * The six sample records, in list order. The first record is repeated as
   * the fourth and the third as the fifth; the first, second, third and
   * sixth are four different videos.
   */
  function SampleVideoData(res: Drawables): (videos: seq<VideoData>)
    ensures |videos| == 6
    ensures videos[0] == videos[3] && videos[2] == videos[4]
    ensures videos[0].title != videos[1].title && videos[0].title != videos[2].title
         && videos[0].title != videos[5].title && videos[1].title != videos[2].title
         && videos[1].title != videos[5].title && videos[2].title != videos[5].title
  {
    [ VideoData(res.thumbnail, "The Beauty of Existence - Heart Touching", "Nasheeed", 19210251),
      VideoData(res.minecraft, "Minecraft | Movie Trailer | Mine craft movie", "DIY Toys", 24000000),
      VideoData(res.thumbnail, "DIY Toys | Satisfying And Relaxing | DIY TikTok Compilation", "DIY Toys", 24000000),
      VideoData(res.thumbnail, "The Beauty of Existence - Heart Touching", "Nasheeed", 19210251),
      VideoData(res.thumbnail, "DIY Toys | Satisfying And Relaxing | DIY TikTok Compilation", "DIY Toys", 24000000),
      VideoData(res.oil, "Saudi Arabia - The Making of a Financial Empire | A Documentary", "Finaus", 24000000) ]
  }
}
