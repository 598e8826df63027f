/**
 * The text of one video card (`VideoThumbnailItem`): the subtitle
 * "<channel> • <count>", where the count is abbreviated to whole millions
 * from one million up and printed in full below that.
 */
module Thumbnail {

  import opened Wrappers
  import opened KotlinInt
  import opened Strings
  import opened Decimal
  import opened Videos

  const MILLION: int := 1000000
  const MILLIONS_SUFFIX: string := "M views"
  const VIEWS_SUFFIX: string := " views"
  const BULLET: char := '\U{2022}'
  /** Space, U+2022 BULLET, space. */
  const SEPARATOR: string := [' ', BULLET, ' ']

  /** The view-count text of a card. */
  function CountText(viewCount: Int32): (r: string)
    ensures EndsWith(r, VIEWS_SUFFIX)
    ensures forall i :: 0 <= i < |r| ==> r[i] != BULLET
  {
    if viewCount >= MILLION then IntToDecimal(Div(viewCount, MILLION)) + MILLIONS_SUFFIX
    else IntToDecimal(viewCount) + VIEWS_SUFFIX
  }

  /**
   * The subtitle line of a card: the channel name unchanged, then space,
   * U+2022, space, then the count text. Splitting it at its last bullet gives
   * both parts back, even when the channel name itself contains a bullet.
   */
  function Subtitle(channelName: string, viewCount: Int32): (r: string)
    ensures SplitSubtitle(r) == Some((channelName, CountText(viewCount)))
  {
    SplitJoined(channelName, CountText(viewCount));
    channelName + SEPARATOR + CountText(viewCount)
  }

  /** What a count text tells the reader: an exact count, or a whole number of millions. */
  datatype CountReading = Exact(views: int) | Millions(millions: int)

  /** Reads a count text back. */
  function ParseCountText(s: string): Option<CountReading>
  {
    if EndsWith(s, MILLIONS_SUFFIX) then
      match ParseDecimal(s[..|s| - |MILLIONS_SUFFIX|])
      case Some(q) => Some(Millions(q))
      case None => None
    else if EndsWith(s, VIEWS_SUFFIX) then
      match ParseDecimal(s[..|s| - |VIEWS_SUFFIX|])
      case Some(n) => Some(Exact(n))
      case None => None
    else None
  }

  /** Splits a subtitle at its last bullet into the channel name and the count text. */
  function SplitSubtitle(s: string): Option<(string, string)>
  {
    match LastIndexOf(s, BULLET)
    case None => None
    case Some(i) =>
      if 1 <= i && i + 1 < |s| && s[i - 1] == ' ' && s[i + 1] == ' ' then Some((s[..i - 1], s[i + 2..]))
      else None
  }

  /**
   * Reading a count text back gives the exact count below one million and
   * the truncated number of millions from one million up.
   */
  lemma CountTextRoundTrip(viewCount: Int32)
    ensures ParseCountText(CountText(viewCount))
         == Some(if viewCount >= MILLION then Millions(viewCount / MILLION) else Exact(viewCount))
  {
    var r := CountText(viewCount);
    if viewCount >= MILLION {
      var q := Div(viewCount, MILLION);
      assert r[..|r| - |MILLIONS_SUFFIX|] == IntToDecimal(q);
      DecimalRoundTrip(q);
    } else {
      var d := IntToDecimal(viewCount);
      assert r[..|r| - |VIEWS_SUFFIX|] == d;
      assert r[|r| - |MILLIONS_SUFFIX|] == d[|d| - 1];
      assert !EndsWith(r, MILLIONS_SUFFIX);
      DecimalRoundTrip(viewCount);
    }
  }

  /**
   * From one million up the text is the truncated quotient followed by
   * "M views"; since the count is a 32-bit `Int`, that quotient lies in
   * 1..2147 and takes at most four digits.
   */
  lemma MillionsBranch(viewCount: Int32)
    requires viewCount >= MILLION
    ensures Div(viewCount, MILLION) == viewCount / MILLION
    ensures 1 <= viewCount / MILLION <= 2147
    ensures CountText(viewCount) == NatToDigits(viewCount / MILLION) + MILLIONS_SUFFIX
    ensures |CountText(viewCount)| <= 4 + |MILLIONS_SUFFIX|
  {
    NatToDigitsLength(viewCount / MILLION, 4);
    assert Pow10(4) == 10000;
  }

  /**
   * Below one million the text is the full decimal of the count followed by
   * " views": the canonical digits of its magnitude, with a leading '-' for
   * a negative count, and no abbreviation.
   */
  lemma PlainBranch(viewCount: Int32)
    requires viewCount < MILLION
    ensures CountText(viewCount)
         == (if viewCount < 0 then "-" + NatToDigits(-(viewCount as int)) else NatToDigits(viewCount)) + VIEWS_SUFFIX
    ensures var r := CountText(viewCount);
      var digits := r[..|r| - |VIEWS_SUFFIX|];
      ParseDecimal(digits) == Some(viewCount as int)
      && (forall i :: 0 <= i < |digits| ==> IsDigit(digits[i]) || (i == 0 && digits[i] == '-'))
      && (digits[0] == '-' <==> viewCount < 0)
  {
    var r := CountText(viewCount);
    assert r[..|r| - |VIEWS_SUFFIX|] == IntToDecimal(viewCount);
    DecimalRoundTrip(viewCount);
  }

  /**
   * Two counts share a text exactly when they are equal or both at least one
   * million with the same number of whole millions.
   */
  lemma CountTextSameIff(a: Int32, b: Int32)
    ensures CountText(a) == CountText(b)
        <==> a == b || (a >= MILLION && b >= MILLION && a / MILLION == b / MILLION)
  {
    if CountText(a) == CountText(b) {
      CountTextRoundTrip(a);
      CountTextRoundTrip(b);
    }
  }

  /** At the threshold, one million is abbreviated. */
  lemma OneMillionExample()
    ensures CountText(1000000) == "1M views"
  {
    MillionsBranch(1000000);
    assert NatToDigits(1) == "1";
  }

  /** Just below the threshold, the count is printed in full. */
  lemma BelowThresholdExample()
    ensures CountText(999999) == "999999 views"
  {
    PlainBranch(999999);
    assert DigitChar(9) == '9';
    AppendDigit(9, 9);
    AppendDigit(99, 9);
    AppendDigit(999, 9);
    AppendDigit(9999, 9);
    AppendDigit(99999, 9);
  }

  /** The sample feed's counts: the millions are truncated, not rounded or given decimals. */
  lemma SampleCountExamples()
    ensures CountText(19210251) == "19M views"
    ensures CountText(24000000) == "24M views"
  {
    MillionsBranch(19210251);
    AppendDigit(1, 9);
    MillionsBranch(24000000);
    AppendDigit(2, 4);
  }

  /** Below the threshold there is no "K" abbreviation. */
  lemma NoThousandsExamples()
    ensures CountText(999) == "999 views"
    ensures CountText(1500) == "1500 views"
  {
    PlainBranch(999);
    assert DigitChar(9) == '9';
    AppendDigit(9, 9);
    AppendDigit(99, 9);
    PlainBranch(1500);
    assert DigitChar(5) == '5' && DigitChar(0) == '0';
    AppendDigit(1, 5);
    AppendDigit(15, 0);
    AppendDigit(150, 0);
  }

  /** Zero prints as a single digit. */
  lemma ZeroExample()
    ensures CountText(0) == "0 views"
  {
    PlainBranch(0);
    assert NatToDigits(0) == "0";
  }

  /** A negative count keeps its sign. */
  lemma NegativeExample()
    ensures CountText(-42) == "-42 views"
  {
    PlainBranch(-42);
    AppendDigit(4, 2);
  }

  /** The largest `Int` gives the largest abbreviated count. */
  lemma MaxValueExample()
    ensures CountText(MAX_VALUE) == "2147M views"
  {
    MillionsBranch(MAX_VALUE);
    assert MAX_VALUE / MILLION == 2147;
    AppendDigit(2, 1);
    AppendDigit(21, 4);
    AppendDigit(214, 7);
  }

  /**
   * Joining a name and a bullet-free text with the separator, then splitting
   * at the last bullet, gives the two back.
   */
  lemma SplitJoined(name: string, text: string)
    requires forall i :: 0 <= i < |text| ==> text[i] != BULLET
    ensures SplitSubtitle(name + SEPARATOR + text) == Some((name, text))
  {
    var s := name + SEPARATOR + text;
    var k := |name| + 1;
    assert s[k] == BULLET;
    match LastIndexOf(s, BULLET)
    case None =>
      assert false;
    case Some(i) =>
      assert i == k;
      assert s[..i - 1] == name;
      assert s[i + 2..] == text;
  }

  /**
   * The converse of `SplitJoined`: a string that splits into a name and a
   * text is that name, the separator and that text.
   */
  lemma SplitIsJoin(s: string, name: string, text: string)
    requires SplitSubtitle(s) == Some((name, text))
    ensures s == name + SEPARATOR + text
  {
    match LastIndexOf(s, BULLET)
    case Some(i) =>
      assert s == s[..i - 1] + [s[i - 1], s[i], s[i + 1]] + s[i + 2..];
  }

  /** Two subtitles are equal exactly when their channel names and count texts are. */
  lemma SubtitleSameIff(c1: string, n1: Int32, c2: string, n2: Int32)
    ensures Subtitle(c1, n1) == Subtitle(c2, n2) <==> c1 == c2 && CountText(n1) == CountText(n2)
  {
  }

  /** What a card holds: its thumbnail id, its title and its subtitle. */
  datatype Card = Card(thumbnailResId: Int32, title: string, subtitle: string)

  /** `VideoThumbnailItem`: the card for one record. */
  function ThumbnailItem(video: VideoData): (card: Card)
    ensures card.thumbnailResId == video.thumbnailResId && card.title == video.title
    ensures SplitSubtitle(card.subtitle) == Some((video.channelName, CountText(video.viewCount)))
  {
    Card(video.thumbnailResId, video.title, Subtitle(video.channelName, video.viewCount))
  }
}
