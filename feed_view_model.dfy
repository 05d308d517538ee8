/** `FeedViewModel`: the feed screen's state and its load and refresh steps. */
module FeedViewModels {
  import opened Wrappers
  import opened Text
  import opened Domain
  import opened PostViewModels

  /** Which use case a step consults. */
  datatype FeedSource = Load | Refresh

  /** The fixed start of the error text of each step. */
  function ErrorPrefix(source: FeedSource): string {
    match source
    case Load => "Failed to load feed"
    case Refresh => "Failed to refresh feed"
  }

  function FeedErrorMessage(source: FeedSource, description: string): (message: string)
    ensures ErrorPrefix(source) <= message
    ensures DescriptionOf(ErrorPrefix(source), message) == Some(description)
  {
    ErrorMessageRoundTrip(ErrorPrefix(source), description);
    ErrorMessage(ErrorPrefix(source), description)
  }

  /** An error text tells which of the two steps failed. */
  lemma ErrorMessageNamesSource(a: FeedSource, b: FeedSource, da: string, db: string)
    requires a != b
    ensures FeedErrorMessage(a, da) != FeedErrorMessage(b, db)
  {
    var ma, mb := FeedErrorMessage(a, da), FeedErrorMessage(b, db);
    assert ma[10] != mb[10];
  }

  class FeedViewModel {
    var posts: seq<PostViewModel>
    var isLoading: bool
    var errorMessage: Option<string>
    /** The use cases consulted so far, in order. */
    ghost var consulted: seq<FeedSource>

    constructor ()
      ensures posts == [] && !isLoading && errorMessage == None
      ensures consulted == []
    {
      posts := [];
      isLoading := false;
      errorMessage := None;
      consulted := [];
    }

    /** The part of a step before its `await`: loading, no error, the use case asked. */
    method Begin(source: FeedSource)
      modifies this
      ensures isLoading && errorMessage == None
      ensures posts == old(posts)
      ensures consulted == old(consulted) + [source]
    {
      isLoading := true;
      errorMessage := None;
      consulted := consulted + [source];
    }

    /** The part of a step after its `await`, given what the use case answered. */
    method Finish(source: FeedSource, outcome: Result<seq<Post>>)
      modifies this
      ensures !isLoading
      ensures consulted == old(consulted)
      ensures outcome.Success? ==> posts == MapPosts(outcome.value) && errorMessage == old(errorMessage)
      ensures outcome.Failure? ==>
        posts == old(posts) && errorMessage == Some(FeedErrorMessage(source, outcome.error))
    {
      match outcome {
        case Success(domainPosts) =>
          posts := MapPosts(domainPosts);
        case Failure(e) =>
          errorMessage := Some(FeedErrorMessage(source, e));
      }
      isLoading := false;
    }

    /** `loadFeed()`, where `outcome` is what `getFeedUseCase.feedPosts` answered. */
    method LoadFeed(outcome: Result<seq<Post>>)
      modifies this
      ensures !isLoading
      ensures consulted == old(consulted) + [Load]
      ensures outcome.Success? ==> posts == MapPosts(outcome.value) && errorMessage == None
      ensures outcome.Failure? ==>
        posts == old(posts) && errorMessage == Some(FeedErrorMessage(Load, outcome.error))
    {
      Begin(Load);
      Finish(Load, outcome);
    }

    /** `refreshFeed()`, where `outcome` is what `refreshFeedUseCase.feedPosts` answered. */
    method RefreshFeed(outcome: Result<seq<Post>>)
      modifies this
      ensures !isLoading
      ensures consulted == old(consulted) + [Refresh]
      ensures outcome.Success? ==> posts == MapPosts(outcome.value) && errorMessage == None
      ensures outcome.Failure? ==>
        posts == old(posts) && errorMessage == Some(FeedErrorMessage(Refresh, outcome.error))
    {
      Begin(Refresh);
      Finish(Refresh, outcome);
    }
  }

  /** A failed load followed by a successful one: the error is gone, the
      posts are the new ones, and only the get-feed use case was asked, twice. */
  method RetryAfterFailedLoad(description: string, domainPosts: seq<Post>) returns (vm: FeedViewModel)
    ensures vm.errorMessage == None && !vm.isLoading
    ensures vm.posts == MapPosts(domainPosts)
    ensures vm.consulted == [Load, Load]
  {
    vm := new FeedViewModel();
    vm.LoadFeed(Failure(description));
    assert vm.errorMessage.Some? && vm.posts == [];
    vm.LoadFeed(Success(domainPosts));
  }
}
