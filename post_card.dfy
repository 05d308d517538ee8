/** The logic of the post card that renders a `Post` directly: its
    relative-time text and the two guards on what the card shows. */
module PostCard {
  import opened Wrappers
  import opened Text
  import opened Domain
  import PostViewModels

  /** `Int(a / b)` for `b > 0`: the quotient rounded toward zero (Dafny's own
      `/` rounds toward minus infinity on negative `a`). */
  function TruncDiv(a: int, b: int): (q: int)
    requires b > 0
    ensures a >= 0 ==> q >= 0 && q * b <= a < q * b + b
    ensures a < 0 ==> q <= 0 && q * b - b < a <= q * b
  {
    var n := if a >= 0 then a else -a;
    var k := n / b;
    assert n == k * b + n % b;
    if a >= 0 then k else -k
  }

  /** `formatTimeAgo(_:)` on the seconds elapsed since the post. */
  function FormatTimeAgo(interval: int): (text: string)
    ensures interval >= 3600 ==> text == IntToString(interval / 3600) + "h ago" && interval / 3600 >= 1
    ensures 60 <= interval < 3600 ==> text == IntToString(interval / 60) + "m ago" && 1 <= interval / 60 <= 59
    ensures interval < 60 ==> text == "Just now"
  {
    var minutes := TruncDiv(interval, 60);
    var hours := TruncDiv(interval, 3600);
    if hours > 0 then IntToString(hours) + "h ago"
    else if minutes > 0 then IntToString(minutes) + "m ago"
    else "Just now"
  }

  /** A whole hour is at least sixty whole minutes. */
  lemma HoursImplyMinutes(interval: int)
    ensures TruncDiv(interval, 3600) > 0 ==> TruncDiv(interval, 60) >= 60
  {
    if TruncDiv(interval, 3600) > 0 {
      assert interval >= 3600;
    }
  }

  /** "Just now" is shown exactly for intervals under a minute, future ones included. */
  lemma JustNowExactlyUnderAMinute(interval: int)
    ensures FormatTimeAgo(interval) == "Just now" <==> interval < 60
  {
    var text := FormatTimeAgo(interval);
    if interval >= 60 {
      assert text[|text| - 1] == 'o';
    }
  }

  /** The three texts never coincide: the text tells which bucket the interval fell in. */
  lemma TimeAgoBucketsDistinct(interval: int)
    ensures interval >= 3600 ==> FormatTimeAgo(interval)[|FormatTimeAgo(interval)| - 5..] == "h ago"
    ensures 60 <= interval < 3600 ==> FormatTimeAgo(interval)[|FormatTimeAgo(interval)| - 5..] == "m ago"
    ensures interval < 60 ==> FormatTimeAgo(interval) == "Just now"
  {
    var text := FormatTimeAgo(interval);
    if interval >= 3600 {
      assert text[|text| - 5..] == "h ago";
    } else if interval >= 60 {
      assert text[|text| - 5..] == "m ago";
    }
  }

  /** The orange "• <n>min late" badge, shown only for a late post whose minutes are known. */
  function LateBadge(post: Post): (badge: Option<string>)
    ensures badge.Some? <==> post.isLate && post.lateByMinutes.Some?
    ensures badge.Some? ==> badge.value == "\U{2022} " + IntToString(post.lateByMinutes.value) + "min late"
  {
    if post.isLate && post.lateByMinutes.Some? then
      Some("\U{2022} " + IntToString(post.lateByMinutes.value) + "min late")
    else None
  }

  /** The caption line, shown only for a caption that is present and not empty. */
  function CaptionText(post: Post): (text: Option<string>)
    ensures text.Some? <==> post.caption.Some? && post.caption.value != ""
    ensures text.Some? ==> text.value == post.caption.value
  {
    match post.caption
    case Some(c) => if c == "" then None else Some(c)
    case None => None
  }

  /** This card shows a lateness badge exactly when the display model's
      indicator names the minutes: a late post with unknown minutes gets
      "Late" from the display model but no badge here. */
  lemma LateBadgeAgreesWithIndicator(post: Post)
    ensures LateBadge(post).Some? <==>
      (PostViewModels.FromPost(post).lateIndicator.Some? && PostViewModels.FromPost(post).lateIndicator != Some("Late"))
  {
    if post.isLate && post.lateByMinutes.Some? {
      assert |PostViewModels.FromPost(post).lateIndicator.value| > 4;
    }
  }
}
