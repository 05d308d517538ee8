/** The display form of a post (`PostViewModel`) and its late indicator. */
module PostViewModels {
  import opened Wrappers
  import opened Text
  import opened Domain

  /** `PostViewModel` without `timeAgo`, which comes from Foundation's
      relative-date formatter. */
  datatype PostViewModel = PostViewModel(
    id: string,
    username: string,
    frontImageURL: string,
    backImageURL: string,
    caption: Option<string>,
    isLate: bool,
    lateIndicator: Option<string>)

  const LateSuffix: string := "m late"

  /** `formatLateIndicator(minutes:)`: "Late" for unknown minutes, otherwise "<n>m late". */
  function FormatLateIndicator(minutes: Option<int>): string {
    match minutes
    case None => "Late"
    case Some(m) => IntToString(m) + LateSuffix
  }

  /** Reads the minutes back out of an indicator. */
  function ParseLateIndicator(indicator: string): Option<Option<int>> {
    if indicator == "Late" then Some(None)
    else if |indicator| > |LateSuffix| && indicator[|indicator| - |LateSuffix|..] == LateSuffix then
      match ParseInt(indicator[..|indicator| - |LateSuffix|])
      case Some(m) => Some(Some(m))
      case None => None
    else None
  }

  /** The indicator loses nothing: the minutes, known or not, can be read back. */
  lemma LateIndicatorRoundTrip(minutes: Option<int>)
    ensures ParseLateIndicator(FormatLateIndicator(minutes)) == Some(minutes)
  {
    if minutes.Some? {
      var s := FormatLateIndicator(minutes);
      var digits := IntToString(minutes.value);
      assert |s| > |LateSuffix|;
      assert s != "Late";
      assert s[|s| - |LateSuffix|..] == LateSuffix;
      assert s[..|s| - |LateSuffix|] == digits;
      IntToStringRoundTrip(minutes.value);
    }
  }

  /** `init(from:)`: field copying, with a late indicator only for late posts. */
  function FromPost(post: Post): PostViewModel {
    PostViewModel(
      id := post.id,
      username := post.user.username,
      frontImageURL := post.frontImageURL,
      backImageURL := post.backImageURL,
      caption := post.caption,
      isLate := post.isLate,
      lateIndicator := if post.isLate then Some(FormatLateIndicator(post.lateByMinutes)) else None)
  }

  /** Identity, author, images, caption and lateness are copied unchanged;
      the indicator is present exactly for late posts and then tells their
      minutes, known or not. */
  lemma FromPostFields(post: Post)
    ensures FromPost(post).id == post.id
    ensures FromPost(post).username == post.user.username
    ensures FromPost(post).frontImageURL == post.frontImageURL
    ensures FromPost(post).backImageURL == post.backImageURL
    ensures FromPost(post).caption == post.caption
    ensures FromPost(post).isLate == post.isLate
    ensures FromPost(post).lateIndicator.Some? <==> post.isLate
    ensures post.isLate ==> ParseLateIndicator(FromPost(post).lateIndicator.value) == Some(post.lateByMinutes)
  {
    LateIndicatorRoundTrip(post.lateByMinutes);
  }

  /** A late post with unknown minutes reads "Late"; with `m` minutes, "<m>m late". */
  lemma LateIndicatorText(post: Post)
    requires post.isLate
    ensures post.lateByMinutes == None ==> FromPost(post).lateIndicator == Some("Late")
    ensures post.lateByMinutes.Some? ==>
      FromPost(post).lateIndicator == Some(IntToString(post.lateByMinutes.value) + "m late")
  {
  }

  /** The lateness minutes of a post that is not late never show. */
  lemma NonLateIgnoresMinutes(post: Post, minutes: Option<int>)
    requires !post.isLate
    ensures FromPost(post.(lateByMinutes := minutes)) == FromPost(post)
  {
  }

  /** `posts.map(PostViewModel.init)`: same length, same order. */
  function MapPosts(posts: seq<Post>): (views: seq<PostViewModel>)
    ensures |views| == |posts|
    ensures forall i :: 0 <= i < |posts| ==> views[i] == FromPost(posts[i])
    decreases |posts|
  {
    if posts == [] then [] else MapPosts(posts[..|posts| - 1]) + [FromPost(posts[|posts| - 1])]
  }
}
