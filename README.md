# beCurrent: the feed and post-creation logic, in Dafny

beCurrent is a BeReal-style photo-sharing client. A user pairs a front-camera
and a back-camera picture, posts them with an optional caption, and reads a
feed of friends' posts. Behind its views sits a small amount of sequential
logic, and this project models it:

- **Post-creation form** (`PostCreation`, class `PostCreationViewModel`). It
  holds the two optional images, the caption, `isCreating` and an optional
  error. `canSubmit` guards the submit button. `createPost()` builds the use
  case's input, with an empty caption turned into nil. On success it resets the
  form. On failure it records a "Failed to create post: …" error and keeps the
  images.
- **Feed screen** (`FeedViewModels`, class `FeedViewModel`). It holds `posts`,
  `isLoading` and `errorMessage`. `loadFeed()` asks the get-feed use case and
  `refreshFeed()` asks the refresh use case. On success the domain posts are
  mapped to display posts in order. On failure a "Failed to load feed: …" or
  "Failed to refresh feed: …" error is set.
- **Display form of a post** (`PostViewModels`). It copies the fields and
  computes the lateness indicator: "Late" when the minutes are unknown,
  "<n>m late" otherwise.
- **The older post card** (`PostCard`). It buckets the elapsed time into
  "<n>h ago", "<n>m ago" or "Just now". It also holds the guards for the
  lateness badge and the caption line.
- **Use cases** (`UseCases`). Get-feed and refresh-feed each forward to a
  different repository getter. Create-post fetches the current user, builds a
  post with fixed defaults and hands it to the post repository.
- Supporting modules: `Wrappers` (optional values, call outcomes), `Text`
  (Swift's decimal rendering of `Int` and its inverse, the
  "prefix: description" error texts) and `Domain` (the records).

How the model is built:

- Each `try await` becomes a `Result` value: `Success(value)` or
  `Failure(description)`. A thrown error is known only by its
  `localizedDescription`.
- A repository is a datatype of the answers it gives. `createPost` is a
  function from the post handed to it to the answer.
- Each use case returns its result together with the list of repository calls
  it made (`Traced`). This is how call counts are stated.
- The view-models are classes whose methods update their fields. Each async
  method is split in two: the part before its `await` (`Begin`, `BeginCreate`)
  and the part after it (`Finish`, `FinishCreate`). The whole method runs one
  after the other. This split makes it statable that `isLoading` and
  `isCreating` are true while the call is awaited.
- A ghost log on each class (`consulted`, `submitted`) records which use case
  was asked, and with what input.
- Fresh identifiers (`UUID()`) and the clock (`Date()`) are parameters
  (`GeneratedValues`). Timestamps and elapsed times are whole seconds.
- The repository uses a `Post` type that it never declares. It is modelled with
  the fields of `BeRealPost` (beCurrent/Domain/EntitiesBeRealPost.swift).

## Model

| member | source | states |
|---|---|---|
| Text.NatToString | beCurrent/Presentation/PostViewModel.swift:42 | the decimal rendering of a count is non-empty and all digits; a one-digit count is one character, and only zero starts with '0' |
| Text.IntToStringRoundTrip | beCurrent/Presentation/PostViewModel.swift:42 | parsing the rendering of any `Int` (negative included) gives that integer back |
| Text.IntToStringInjective | beCurrent/Presentation/PostViewModel.swift:42 | two integers with the same rendering are equal |
| Text.ErrorMessage | beCurrent/Presentation/FeedViewModel.swift:36 | an error text starts with its prefix and has room for exactly ": " and the description |
| Text.ErrorMessageRoundTrip | beCurrent/Presentation/PostCreationViewModel.swift:50 | the thrown error's description can be read back from the error text |
| Domain.DefaultCaptionIsNone | beCurrent/Domain/CreatePostUseCase.swift:15-19 | an input built without a caption has caption nil |
| UseCases.FeedPostsForwards | beCurrent/Domain/GetFeedUseCase.swift:25-29 | `GetFeedUseCase.feedPosts` answers exactly what the repository's `feed` answers (a list, empty included, or the error), after exactly one repository call, to `feed` |
| UseCases.RefreshFeedPostsForwards | beCurrent/Domain/GetFeedUseCase.swift:39-43 | `RefreshFeedUseCase.feedPosts` answers exactly what `refreshedFeed` answers, after exactly one repository call, to `refreshedFeed` |
| UseCases.FeedPostsNoCaching | beCurrent/Domain/GetFeedUseCase.swift:25-29 | nothing is cached: n reads of `feedPosts` make exactly n calls, all to `feed` |
| UseCases.RefreshReadsOnlyRefreshedFeed | beCurrent/Domain/GetFeedUseCase.swift:39-43 | the refresh use case never depends on `feed`: repositories agreeing on `refreshedFeed` give the same result and calls |
| UseCases.NewPostFields | beCurrent/Domain/CreatePostUseCase.swift:40-53 | the built post has the current user, the input's caption, not late, no lateness minutes, no location, the fresh id and clock reading, and image URLs that are the fixed front/back prefixes followed by fresh ids |
| UseCases.CreatePostUserFailure | beCurrent/Domain/CreatePostUseCase.swift:35-36 | when fetching the current user fails, that error is the result and the post repository is never asked to store anything |
| UseCases.CreatePostForwards | beCurrent/Domain/CreatePostUseCase.swift:35-55 | when the user is known, exactly one post is stored, and it is exactly the record `NewPost` builds from that user, the input's caption and the generated values; the repository's answer (value or error) is the result |
| UseCases.ImageDataIrrelevant | beCurrent/Domain/CreatePostUseCase.swift:43-53 | the input's image bytes never influence the result or the calls |
| PostViewModels.LateIndicatorRoundTrip | beCurrent/Presentation/PostViewModel.swift:40-43 | the lateness minutes, known or unknown, can be read back from the indicator text |
| PostViewModels.FromPostFields | beCurrent/Presentation/PostViewModel.swift:23-32 | id, username, URLs, caption and lateness are copied unchanged; the indicator is present exactly when the post is late, and then tells its minutes |
| PostViewModels.LateIndicatorText | beCurrent/Presentation/PostViewModel.swift:31-42 | a late post with unknown minutes shows "Late"; with m minutes it shows "<m>m late" |
| PostViewModels.NonLateIgnoresMinutes | beCurrent/Presentation/PostViewModel.swift:31 | a post that is not late displays the same whatever its lateness minutes |
| PostViewModels.MapPosts | beCurrent/Presentation/FeedViewModel.swift:34 | mapping a feed gives one display post per domain post, same length and same order |
| PostCard.TruncDiv | beCurrent/Presentation/PresentationViewsPostCardView.swift:103-104 | `Int(a / b)` rounds toward zero: for non-negative a it is the floor quotient, for negative a it is non-positive and within one b of a |
| PostCard.FormatTimeAgo | beCurrent/Presentation/PresentationViewsPostCardView.swift:101-113 | at least 3600 s gives "<hours>h ago" with at least one hour; [60, 3600) s gives "<minutes>m ago" with 1 to 59 minutes; under 60 s, future times included, gives "Just now" |
| PostCard.HoursImplyMinutes | beCurrent/Presentation/PresentationViewsPostCardView.swift:103-107 | a positive hour count implies at least 60 minutes |
| PostCard.JustNowExactlyUnderAMinute | beCurrent/Presentation/PresentationViewsPostCardView.swift:102-111 | the text is "Just now" if and only if less than a minute has elapsed |
| PostCard.TimeAgoBucketsDistinct | beCurrent/Presentation/PresentationViewsPostCardView.swift:106-112 | the hour text ends in "h ago", the minute text in "m ago", and the rest is "Just now", so the text names its bucket |
| PostCard.LateBadge | beCurrent/Presentation/PresentationViewsPostCardView.swift:28-29 | the badge is shown exactly when the post is late and its minutes are known, and then reads "• <minutes>min late" |
| PostCard.CaptionText | beCurrent/Presentation/PresentationViewsPostCardView.swift:89 | the caption line is shown exactly when the caption is present and non-empty, and shows it verbatim |
| PostCard.LateBadgeAgreesWithIndicator | beCurrent/Presentation/PresentationViewsPostCardView.swift:28-29 | this card shows a badge exactly when the display model's indicator names minutes; a late post with unknown minutes gets "Late" there but no badge here |
| FeedViewModels.FeedErrorMessage | beCurrent/Presentation/FeedViewModel.swift:35-37 | a feed error text starts with the step's prefix and carries the error's description |
| FeedViewModels.ErrorMessageNamesSource | beCurrent/Presentation/FeedViewModel.swift:36-50 | a load error text and a refresh error text never coincide |
| FeedViewModels.FeedViewModel.constructor | beCurrent/Presentation/FeedViewModel.swift:13-15 | a fresh feed screen has no posts, is not loading and has no error |
| FeedViewModels.FeedViewModel.Begin | beCurrent/Presentation/FeedViewModel.swift:29-30 | while the use case is awaited, the screen is loading, shows no error and keeps its posts |
| FeedViewModels.FeedViewModel.Finish | beCurrent/Presentation/FeedViewModel.swift:32-39 | after the answer: posts replaced by the mapped result on success; on failure posts kept and error set; loading over either way |
| FeedViewModels.FeedViewModel.LoadFeed | beCurrent/Presentation/FeedViewModel.swift:28-40 | `loadFeed()` asks the get-feed use case once; success gives the mapped posts and no error; failure keeps the posts and sets "Failed to load feed: …"; not loading afterwards |
| FeedViewModels.FeedViewModel.RefreshFeed | beCurrent/Presentation/FeedViewModel.swift:42-54 | `refreshFeed()` asks only the refresh use case, once; success gives the mapped posts and no error; failure sets "Failed to refresh feed: …"; not loading afterwards |
| FeedViewModels.RetryAfterFailedLoad | beCurrentTests/beCurrentTests.swift:348-370 | a successful load after a failed one clears the error and shows the new posts |
| PostCreation.CreateErrorMessage | beCurrent/Presentation/PostCreationViewModel.swift:49-51 | the creation error text starts with "Failed to create post" and carries the error's description |
| PostCreation.CaptionForInput | beCurrent/Presentation/PostCreationViewModel.swift:42 | the caption handed on is nil exactly when the typed caption is empty, and otherwise is the caption unchanged |
| PostCreation.PostCreationViewModel.constructor | beCurrent/Presentation/PostCreationViewModel.swift:17-21 | a fresh form has no images, an empty caption, is not creating, has no error and cannot be submitted |
| PostCreation.PostCreationViewModel.ResetForm | beCurrent/Presentation/PostCreationViewModel.swift:56-60 | the images are cleared and the caption emptied, nothing else changes, and the form cannot be submitted |
| PostCreation.PostCreationViewModel.BeginCreate | beCurrent/Presentation/PostCreationViewModel.swift:33-43 | without both images nothing changes and the use case is not asked; otherwise the form is creating, cannot be submitted, has no error, and exactly one input, built from the form, is handed to the use case |
| PostCreation.PostCreationViewModel.FinishCreate | beCurrent/Presentation/PostCreationViewModel.swift:45-53 | on success the form is reset; on failure images and caption are kept and the error set; creation is over either way |
| PostCreation.PostCreationViewModel.CreatePost | beCurrent/Presentation/PostCreationViewModel.swift:32-54 | `createPost()` without both images changes nothing; otherwise it hands one input to the use case, and ends not creating: reset with no error and not submittable on success, or images kept and "Failed to create post: …" set on failure |
| PostCreation.CanSubmitNeedsBothImages | beCurrent/Presentation/PostCreationViewModel.swift:24-26 | the form can be submitted exactly when both images are there and no creation is in progress; either image alone is not enough |
| PostCreation.FormCaptionShownIffNonEmpty | beCurrent/Presentation/PostCreationViewModel.swift:42 | a caption typed in the form shows on the card of the post built from it exactly when it is non-empty |
| PostCreation.SubmitFilledForm | beCurrentTests/beCurrentTests.swift:477-555 | submitting a filled form hands exactly one input to the use case with the caption; success leaves it unsubmittable with no error; failure leaves it submittable with a "Failed to create post" error |

## Left out

- The SwiftUI views, the app entry points and the dependency wiring. They
  compute nothing; this includes the location pin of the older post card.
- The `timeAgo` field of the display post, and `formatTimeAgo(from:)` in
  PostViewModel.swift. They call Foundation's relative-date formatter, which is
  not part of this model. The older card's own `formatTimeAgo(_:)` is modelled.
- The mock repositories and their fixed sample data and delays. Repositories
  are modelled by the answers they give.
- The near-duplicate types of older revisions: the second create-post use case,
  the older feed view-model and the near-copy of the display post. They repeat
  the logic modelled here.
- `Item.swift`, a persistence stub.
- Concurrency. `@MainActor` and interleaved or overlapping calls are not
  modelled. Each async method runs its two steps back to back.
- PostCreation.PostCreationViewModel.CreatePost: the answer of the use case is
  a parameter, so the model does not tie it to the input handed over. Feeding
  `UseCases.CreatePostUseCase.CreatePost` into it is left to the caller.
- FeedViewModels.FeedViewModel.LoadFeed and FeedViewModels.FeedViewModel.RefreshFeed:
  the use case's answer is a parameter, and the ghost log says which use case
  was asked.
- PostCard.FormatTimeAgo: `TimeInterval` is a floating-point number of seconds
  in the source; the model uses it truncated to whole seconds. A fraction of a second never
  changes the result, because the result only rounds toward zero to whole minutes and
  hours. The trap of `Int(_:)` on a non-finite interval is not modelled.
- 64-bit `Int` bounds on the lateness minutes are not modelled: integers are
  unbounded.
- A `CLLocation` is reduced to two coordinates. Only its absence matters here.
- The `!` on `URL(string:)` is not modelled. It cannot fail for the fixed
  prefixes followed by a UUID string.

Code as written: the guard of `createPost()` checks only the two images, not
`isCreating`, while `canSubmit` checks all three. The model keeps this
difference (`HasBothImages` versus `CanSubmit`).
