/** The repositories and the three use cases that forward to them.

    A repository is modelled by the answers it gives: each getter is the
    outcome of one `try await` on it, and `createPost` maps the post handed to
    it to the outcome of storing it. Every use case returns, beside its result,
    the repository calls it made, so that call counts can be stated. */
module UseCases {
  import opened Wrappers
  import opened Domain

  datatype PostRepository = PostRepository(
    feed: Result<seq<Post>>,
    refreshedFeed: Result<seq<Post>>,
    createPost: Post -> Result<Post>)

  datatype UserRepository = UserRepository(currentUser: Result<User>)

  datatype RepositoryCall = FeedCall | RefreshedFeedCall | CreatePostCall(post: Post) | CurrentUserCall

  datatype CallKind = Feed | RefreshedFeed | CreatePost | CurrentUser

  function KindOf(call: RepositoryCall): CallKind {
    match call
    case FeedCall => Feed
    case RefreshedFeedCall => RefreshedFeed
    case CreatePostCall(_) => CreatePost
    case CurrentUserCall => CurrentUser
  }

  /** How many of `calls` are of `kind`. */
  function Count(calls: seq<RepositoryCall>, kind: CallKind): (n: nat)
    ensures n <= |calls|
    decreases |calls|
  {
    if calls == [] then 0
    else Count(calls[..|calls| - 1], kind) + (if KindOf(calls[|calls| - 1]) == kind then 1 else 0)
  }

  lemma {:induction false} CountAppend(a: seq<RepositoryCall>, b: seq<RepositoryCall>, kind: CallKind)
    ensures Count(a + b, kind) == Count(a, kind) + Count(b, kind)
    decreases |b|
  {
    if b != [] {
      assert (a + b)[..|a + b| - 1] == a + b[..|b| - 1];
      CountAppend(a, b[..|b| - 1], kind);
    } else {
      assert a + b == a;
    }
  }

  /** A use case's result and the repository calls it made, in order. */
  datatype Traced<T> = Traced(result: Result<T>, calls: seq<RepositoryCall>)

  datatype GetFeedUseCase = GetFeedUseCase(postRepository: PostRepository) {
    /** The getter `feedPosts`: one read of the repository's `feed`. */
    function FeedPosts(): Traced<seq<Post>> {
      Traced(postRepository.feed, [FeedCall])
    }
  }

  datatype RefreshFeedUseCase = RefreshFeedUseCase(postRepository: PostRepository) {
    /** The getter `feedPosts`: one read of the repository's `refreshedFeed`. */
    function FeedPosts(): Traced<seq<Post>> {
      Traced(postRepository.refreshedFeed, [RefreshedFeedCall])
    }
  }

  /** `feedPosts` answers exactly what the repository's `feed` answers (a
      list, possibly empty, or the error), after one call to `feed` and none
      to `refreshedFeed`. */
  lemma FeedPostsForwards(useCase: GetFeedUseCase)
    ensures useCase.FeedPosts().result == useCase.postRepository.feed
    ensures |useCase.FeedPosts().calls| == 1
    ensures Count(useCase.FeedPosts().calls, Feed) == 1
    ensures Count(useCase.FeedPosts().calls, RefreshedFeed) == 0
  {
  }

  /** The refresh use case answers what `refreshedFeed` answers, after one call to it. */
  lemma RefreshFeedPostsForwards(useCase: RefreshFeedUseCase)
    ensures useCase.FeedPosts().result == useCase.postRepository.refreshedFeed
    ensures |useCase.FeedPosts().calls| == 1
    ensures Count(useCase.FeedPosts().calls, RefreshedFeed) == 1
    ensures Count(useCase.FeedPosts().calls, Feed) == 0
  {
  }

  /** The repository calls made by reading `feedPosts` `n` times in a row. */
  function RepeatedFeedPosts(useCase: GetFeedUseCase, n: nat): seq<RepositoryCall>
    decreases n
  {
    if n == 0 then [] else RepeatedFeedPosts(useCase, n - 1) + useCase.FeedPosts().calls
  }

  /** Nothing is cached: `n` reads of `feedPosts` make exactly `n` calls, all to `feed`. */
  lemma {:induction false} FeedPostsNoCaching(useCase: GetFeedUseCase, n: nat)
    ensures Count(RepeatedFeedPosts(useCase, n), Feed) == n
    ensures Count(RepeatedFeedPosts(useCase, n), RefreshedFeed) == 0
    ensures |RepeatedFeedPosts(useCase, n)| == n
    decreases n
  {
    if n > 0 {
      FeedPostsNoCaching(useCase, n - 1);
      CountAppend(RepeatedFeedPosts(useCase, n - 1), [FeedCall], Feed);
      CountAppend(RepeatedFeedPosts(useCase, n - 1), [FeedCall], RefreshedFeed);
    }
  }

  /** The refresh use case never reads `feed`: repositories that agree on
      `refreshedFeed` give the same result and the same calls. */
  lemma RefreshReadsOnlyRefreshedFeed(a: PostRepository, b: PostRepository)
    requires a.refreshedFeed == b.refreshedFeed
    ensures RefreshFeedUseCase(a).FeedPosts() == RefreshFeedUseCase(b).FeedPosts()
    ensures Count(RefreshFeedUseCase(a).FeedPosts().calls, Feed) == 0
  {
  }

  /** The identifiers and the clock reading that `createPost` draws
      (`UUID()` three times, `Date()` once). */
  datatype GeneratedValues = GeneratedValues(frontImageId: string, backImageId: string, postId: string, now: int)

  const FrontImageURLPrefix: string := "https://example.com/front/"
  const BackImageURLPrefix: string := "https://example.com/back/"

  /** The record `createPost` builds for the current user. */
  function NewPost(user: User, input: CreatePostInput, gen: GeneratedValues): Post {
    Post(
      id := gen.postId,
      user := user,
      frontImageURL := FrontImageURLPrefix + gen.frontImageId,
      backImageURL := BackImageURLPrefix + gen.backImageId,
      caption := input.caption,
      location := None,
      timestamp := gen.now,
      isLate := false,
      lateByMinutes := None)
  }

  /** The identifier at the end of an image URL with the given prefix. */
  function ImageIdOf(prefix: string, url: string): Option<string> {
    if prefix <= url then Some(url[|prefix|..]) else None
  }

  /** The fixed defaults of a new post, and where its fields come from. */
  lemma NewPostFields(user: User, input: CreatePostInput, gen: GeneratedValues)
    ensures NewPost(user, input, gen).user == user
    ensures NewPost(user, input, gen).caption == input.caption
    ensures !NewPost(user, input, gen).isLate
    ensures NewPost(user, input, gen).lateByMinutes == None
    ensures NewPost(user, input, gen).location == None
    ensures NewPost(user, input, gen).id == gen.postId
    ensures NewPost(user, input, gen).timestamp == gen.now
    ensures ImageIdOf(FrontImageURLPrefix, NewPost(user, input, gen).frontImageURL) == Some(gen.frontImageId)
    ensures ImageIdOf(BackImageURLPrefix, NewPost(user, input, gen).backImageURL) == Some(gen.backImageId)
  {
    var p := NewPost(user, input, gen);
    assert p.frontImageURL[|FrontImageURLPrefix|..] == gen.frontImageId;
    assert p.backImageURL[|BackImageURLPrefix|..] == gen.backImageId;
  }

  datatype CreatePostUseCase = CreatePostUseCase(postRepository: PostRepository, userRepository: UserRepository) {
    /** `createPost(input:)`: fetch the current user, build the post, hand it to the repository. */
    function CreatePost(input: CreatePostInput, gen: GeneratedValues): Traced<Post> {
      match userRepository.currentUser
      case Failure(e) => Traced(Failure(e), [CurrentUserCall])
      case Success(user) =>
        var post := NewPost(user, input, gen);
        Traced(postRepository.createPost(post), [CurrentUserCall, CreatePostCall(post)])
    }
  }

  /** When the current user cannot be fetched, its error is the result and
      the post repository is never asked to store anything. */
  lemma CreatePostUserFailure(useCase: CreatePostUseCase, input: CreatePostInput, gen: GeneratedValues)
    requires useCase.userRepository.currentUser.Failure?
    ensures useCase.CreatePost(input, gen).result == Failure(useCase.userRepository.currentUser.error)
    ensures Count(useCase.CreatePost(input, gen).calls, CreatePost) == 0
  {
  }

  /** When the user is known, exactly one post is stored: the record
      `NewPost` builds from that user, the input's caption and the generated
      values; the repository's answer, value or
      error, is the result. */
  lemma CreatePostForwards(useCase: CreatePostUseCase, input: CreatePostInput, gen: GeneratedValues)
    requires useCase.userRepository.currentUser.Success?
    ensures Count(useCase.CreatePost(input, gen).calls, CreatePost) == 1
    ensures var t := useCase.CreatePost(input, gen);
            var stored := t.calls[1].post;
            && t.calls[1].CreatePostCall?
            && stored == NewPost(useCase.userRepository.currentUser.value, input, gen)
            && stored.user == useCase.userRepository.currentUser.value
            && stored.caption == input.caption
            && t.result == useCase.postRepository.createPost(stored)
  {
  }

  /** The image bytes of the input never reach the built post: inputs that
      differ only in their images give the same result and the same calls. */
  lemma ImageDataIrrelevant(useCase: CreatePostUseCase, a: CreatePostInput, b: CreatePostInput, gen: GeneratedValues)
    requires a.caption == b.caption
    ensures useCase.CreatePost(a, gen) == useCase.CreatePost(b, gen)
  {
    if useCase.userRepository.currentUser.Success? {
      assert NewPost(useCase.userRepository.currentUser.value, a, gen)
          == NewPost(useCase.userRepository.currentUser.value, b, gen);
    }
  }
}
