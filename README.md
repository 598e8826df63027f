# Video-feed home screen: view-count subtitle, feed and bottom bar

This project models the logic inside a single-screen Jetpack Compose mock-up of a
video-feed home screen (`app/src/main/java/com/example/youtube/MainActivity.kt`). Almost all of that file is declarative layout.
The model covers the parts that behave:

- **The card subtitle.** `VideoThumbnailItem` builds `"<channelName> • <count>"`.
  The count is `"<viewCount / 1000000>M views"` when `viewCount >= 1000000`. Kotlin
  `/` truncates here. Otherwise the count is `"<viewCount> views"`, with no "K" style
  abbreviation. `viewCount` is a Kotlin `Int`, so it is modelled as a signed 32-bit
  integer (`KotlinInt.Int32`), and `Int.toString()` as `Decimal.IntToDecimal`.
- **The feed.** `items(sampleVideoData)` (lines 58-60) renders one card per record, in
  list order. `Feed.RenderFeed` models it over an immutable `seq<VideoData>`.
  - The `VideoData` record (lines 252-257) is the datatype `Videos.VideoData`. It has
    the same four fields; the two `Int` fields are `Int32`.
  - `Videos.SampleVideoData` holds the six sample records (lines 259-296).
- **The bottom bar.** `YoutubeBottomNavigation` (lines 179-248) has five fixed entries.
  Only Home is selected. The constant `BottomNavigation.Items` lists each entry's text
  and `selected` flag in source order, and `BottomNavigation.OnlyHomeSelected` states
  its content.

Each operation has a partner:

- Printed integers are read back by `Decimal.ParseDecimal`.
- Count texts are read back by `Thumbnail.ParseCountText`.
- Subtitles are split at their last bullet by `Thumbnail.SplitSubtitle`.

Round-trip and if-and-only-if lemmas connect each operation to its partner.

Modules, one concept each:

| file | module | contents |
|---|---|---|
| wrappers.dfy | Wrappers | `Option` |
| kotlin_int.dfy | KotlinInt | `Int32` and Kotlin's truncating `/` |
| strings.dfy | Strings | `EndsWith`, `LastIndexOf` |
| decimal.dfy | Decimal | printing and parsing decimal integers |
| videos.dfy | Videos | `VideoData` and the sample list |
| thumbnail.dfy | Thumbnail | count text, subtitle, card |
| feed.dfy | Feed | the feed's cards |
| bottom_navigation.dfy | BottomNavigation | the bottom bar's entries |

`viewCount` is declared `Int` (line 256), so negative counts are possible. They take
the plain branch and print with a leading `-` (`Thumbnail.PlainBranch`,
`Thumbnail.NegativeExample`).

## Model

| member | source | states |
|---|---|---|
| KotlinInt.Div | app/src/main/java/com/example/youtube/MainActivity.kt:156 | Kotlin's integer `/` by a positive divisor truncates toward zero: for a non-negative dividend the quotient is the floor, for a negative one the ceiling |
| Decimal.NatToDigits | app/src/main/java/com/example/youtube/MainActivity.kt:156 | the digits of a natural number are non-empty, all decimal digits, and start with '0' only for zero itself |
| Decimal.IntToDecimal | app/src/main/java/com/example/youtube/MainActivity.kt:156 | an `Int` in a string template prints as digits that end in a digit, with a leading '-' exactly when the value is negative, and with no leading zero in the magnitude unless the value is zero |
| Decimal.CanonicalDigitsRoundTrip | app/src/main/java/com/example/youtube/MainActivity.kt:156 | every non-empty digit string without a leading zero (other than "0" itself) is what `NatToDigits` prints for its value, so the canonical digits of a number are unique |
| Decimal.AppendDigit | app/src/main/java/com/example/youtube/MainActivity.kt:156 | the digits of 10n + d, for positive n and one digit d, are the digits of n followed by d's character |
| Decimal.DecimalRoundTrip | app/src/main/java/com/example/youtube/MainActivity.kt:156 | parsing the printed text of any integer gives that integer back |
| Decimal.IntToDecimalInjective | app/src/main/java/com/example/youtube/MainActivity.kt:156 | two integers print the same exactly when they are equal |
| Decimal.NatToDigitsLength | app/src/main/java/com/example/youtube/MainActivity.kt:156 | a natural number prints in at most k digits exactly when it is below 10^k |
| Thumbnail.CountText | app/src/main/java/com/example/youtube/MainActivity.kt:156 | every count text ends in " views" and contains no bullet character |
| Thumbnail.CountTextRoundTrip | app/src/main/java/com/example/youtube/MainActivity.kt:156 | reading a count text back gives the exact count below 1000000 and the truncated number of millions from 1000000 up |
| Thumbnail.MillionsBranch | app/src/main/java/com/example/youtube/MainActivity.kt:156 | from 1000000 up the text is the digits of the truncated quotient by 1000000 followed by "M views"; for a 32-bit `Int` that quotient lies in 1..2147 and has at most four digits |
| Thumbnail.PlainBranch | app/src/main/java/com/example/youtube/MainActivity.kt:156 | below 1000000 the text is exactly the canonical digits of the count's magnitude, with '-' in front for a negative count, followed by " views": no abbreviation and no padding; the part before " views" parses back to the count |
| Thumbnail.CountTextSameIff | app/src/main/java/com/example/youtube/MainActivity.kt:156 | two counts give the same text exactly when they are equal, or both at least 1000000 with the same whole number of millions |
| Thumbnail.OneMillionExample | app/src/main/java/com/example/youtube/MainActivity.kt:156 | 1000000 gives "1M views" |
| Thumbnail.BelowThresholdExample | app/src/main/java/com/example/youtube/MainActivity.kt:156 | 999999 gives "999999 views" |
| Thumbnail.SampleCountExamples | app/src/main/java/com/example/youtube/MainActivity.kt:156 | 19210251 gives "19M views", not a decimal fraction of millions, and 24000000 gives "24M views" |
| Thumbnail.NoThousandsExamples | app/src/main/java/com/example/youtube/MainActivity.kt:156 | 999 and 1500 print in full, with no "K" abbreviation |
| Thumbnail.ZeroExample | app/src/main/java/com/example/youtube/MainActivity.kt:156 | 0 prints as "0 views" |
| Thumbnail.NegativeExample | app/src/main/java/com/example/youtube/MainActivity.kt:156 | -42 prints as "-42 views": a negative count keeps its sign |
| Thumbnail.MaxValueExample | app/src/main/java/com/example/youtube/MainActivity.kt:156 | the largest `Int`, 2147483647, gives "2147M views" |
| Thumbnail.Subtitle | app/src/main/java/com/example/youtube/MainActivity.kt:156 | the subtitle is the channel name unchanged, then space, U+2022, space, then the count text: splitting it at its last bullet gives both back, even for a channel name that contains a bullet |
| Thumbnail.SplitJoined | app/src/main/java/com/example/youtube/MainActivity.kt:156 | joining any name and any bullet-free text with " • " and splitting at the last bullet gives the name and the text back |
| Thumbnail.SplitIsJoin | app/src/main/java/com/example/youtube/MainActivity.kt:156 | whatever splits at its last bullet into a name and a text is exactly that name, then space, U+2022, space, then that text: with `Thumbnail.Subtitle`'s contract this fixes the subtitle string |
| Thumbnail.SubtitleSameIff | app/src/main/java/com/example/youtube/MainActivity.kt:156 | two subtitles are equal exactly when their channel names and their count texts are equal |
| Thumbnail.ThumbnailItem | app/src/main/java/com/example/youtube/MainActivity.kt:122-170 | a card keeps its record's thumbnail and title, and its subtitle splits back into the record's channel name and count text |
| Feed.RenderFeed | app/src/main/java/com/example/youtube/MainActivity.kt:58-60 | the feed has one card per record, and the card at each position is the card of the record at that position: nothing is filtered, deduplicated or reordered |
| Feed.RenderFeedAppend | app/src/main/java/com/example/youtube/MainActivity.kt:58-60 | rendering a list made of two parts renders the first part and then the second |
| Videos.SampleVideoData | app/src/main/java/com/example/youtube/MainActivity.kt:259-296 | the sample list has six records; the first is repeated as the fourth and the third as the fifth, and the first, second, third and sixth have four different titles |
| Feed.SampleFeed | app/src/main/java/com/example/youtube/MainActivity.kt:259-296 | the sample feed renders six cards; the repeated records give repeated cards, and the subtitles read "Nasheeed • 19M views", "DIY Toys • 24M views" and "Finaus • 24M views" |
| BottomNavigation.SelectedCount | app/src/main/java/com/example/youtube/MainActivity.kt:179-248 | the count is the number of positions whose entry is selected; it is at most the number of entries, and zero exactly when no entry is selected |
| BottomNavigation.ExactlyOneSelected | app/src/main/java/com/example/youtube/MainActivity.kt:179-248 | given a selected entry k, the count is 1 exactly when no other entry is selected |
| BottomNavigation.OnlyHomeSelected | app/src/main/java/com/example/youtube/MainActivity.kt:179-248 | the bottom bar has exactly five entries (Home, Explore, Create, Subscriptions, Library) and exactly one selected entry, Home |

## Left out

- The activity lifecycle, edge-to-edge setup, splash screen and theme (`MainActivity.onCreate`). These are Android platform plumbing.
- Compose layout: `Scaffold`, `LazyColumn`, rows, columns, modifiers, padding, spacers, colours, `dp`/`sp` sizes, font weights. This is presentation with no behavioural contract. A card is modelled by its thumbnail resource id, its full title and its subtitle. The per-card "More options" icon (lines 162-167), the image's crop and the spacers are left out.
- The top app bar (`YoutubeTopAppBar`): a logo and four static icons (Cast, Create, Notifications, Profile) with no data and no behaviour.
- `painterResource` and drawable resource ids. Asset loading is a platform call. The ids are assigned by the Android build, so `Videos.SampleVideoData` takes them as parameters (`Videos.Drawables`).
- The `16f / 9f` thumbnail aspect ratio. It is floating point and purely visual.
- `maxLines = 2` on the title. The text layout layer truncates, not this code, so the card keeps the full title.
- The empty `onClick` handlers and icon choices of the bottom bar. They carry no behaviour.
- Lazy, scroll-driven composition of the feed. `Feed.RenderFeed` gives the whole list of cards at once. Which cards are on screen at a given moment is not modelled.
