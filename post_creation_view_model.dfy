/** `PostCreationViewModel`: the post-creation form and its submit step. */
module PostCreation {
  import opened Wrappers
  import opened Text
  import opened Domain
  import UseCases
  import PostCard

  const CreateErrorPrefix: string := "Failed to create post"

  function CreateErrorMessage(description: string): (message: string)
    ensures CreateErrorPrefix <= message
    ensures DescriptionOf(CreateErrorPrefix, message) == Some(description)
  {
    ErrorMessageRoundTrip(CreateErrorPrefix, description);
    ErrorMessage(CreateErrorPrefix, description)
  }

  /** The caption handed to the use case: an empty caption becomes nil. */
  function CaptionForInput(caption: string): (r: Option<string>)
    ensures r == None <==> caption == ""
    ensures r.Some? ==> r.value == caption
  {
    if caption == "" then None else Some(caption)
  }

  class PostCreationViewModel {
    var frontImageData: Option<Bytes>
    var backImageData: Option<Bytes>
    var caption: string
    var isCreating: bool
    var errorMessage: Option<string>
    /** The inputs handed to the create-post use case so far, in order. */
    ghost var submitted: seq<CreatePostInput>

    /** `canSubmit`. */
    predicate CanSubmit()
      reads this
    {
      frontImageData.Some? && backImageData.Some? && !isCreating
    }

    /** The two images that `createPost` needs, when both are there. */
    predicate HasBothImages()
      reads this
    {
      frontImageData.Some? && backImageData.Some?
    }

    /** The input `createPost` builds from the form. */
    function Input(): CreatePostInput
      reads this
      requires HasBothImages()
    {
      NewCreatePostInput(frontImageData.value, backImageData.value, CaptionForInput(caption))
    }

    constructor ()
      ensures frontImageData == None && backImageData == None && caption == ""
      ensures !isCreating && errorMessage == None
      ensures submitted == []
      ensures !CanSubmit()
    {
      frontImageData := None;
      backImageData := None;
      caption := "";
      isCreating := false;
      errorMessage := None;
      submitted := [];
    }

    /** `resetForm()`: no images and an empty caption. */
    method ResetForm()
      modifies this
      ensures frontImageData == None && backImageData == None && caption == ""
      ensures isCreating == old(isCreating) && errorMessage == old(errorMessage)
      ensures submitted == old(submitted)
      ensures !CanSubmit()
    {
      frontImageData := None;
      backImageData := None;
      caption := "";
    }

    /** The part of `createPost()` before its `await`. Without both images
        nothing happens; otherwise the form is creating, the error is
        cleared and the input is handed to the use case. */
    method BeginCreate() returns (input: Option<CreatePostInput>)
      modifies this
      ensures !old(HasBothImages()) ==> input == None && unchanged(this)
      ensures old(HasBothImages()) ==>
        && input == Some(old(Input()))
        && isCreating && errorMessage == None && !CanSubmit()
        && frontImageData == old(frontImageData) && backImageData == old(backImageData)
        && caption == old(caption)
        && submitted == old(submitted) + [input.value]
    {
      if frontImageData.None? || backImageData.None? {
        return None;
      }
      isCreating := true;
      errorMessage := None;
      input := Some(Input());
      submitted := submitted + [input.value];
    }

    /** The part of `createPost()` after its `await`, given what the use case
        answered: on success the form is reset, on failure the error is
        recorded and the form is kept; either way creation is over. */
    method FinishCreate(outcome: Result<Post>)
      modifies this
      ensures !isCreating && submitted == old(submitted)
      ensures outcome.Success? ==>
        && frontImageData == None && backImageData == None && caption == ""
        && errorMessage == old(errorMessage)
      ensures outcome.Failure? ==>
        && frontImageData == old(frontImageData) && backImageData == old(backImageData)
        && caption == old(caption)
        && errorMessage == Some(CreateErrorMessage(outcome.error))
    {
      match outcome {
        case Success(_) =>
          ResetForm();
        case Failure(e) =>
          errorMessage := Some(CreateErrorMessage(e));
      }
      isCreating := false;
    }

    /** `createPost()`, where `outcome` is what the use case answers for the
        input it is handed. */
    method CreatePost(outcome: Result<Post>)
      modifies this
      ensures !old(HasBothImages()) ==> unchanged(this)
      ensures old(HasBothImages()) ==>
        && !isCreating
        && submitted == old(submitted) + [old(Input())]
        && (outcome.Success? ==>
              && frontImageData == None && backImageData == None && caption == ""
              && errorMessage == None && !CanSubmit())
        && (outcome.Failure? ==>
              && frontImageData == old(frontImageData) && backImageData == old(backImageData)
              && caption == old(caption)
              && errorMessage == Some(CreateErrorMessage(outcome.error)))
    {
      var input := BeginCreate();
      if input.Some? {
        FinishCreate(outcome);
      }
    }
  }

  /** `canSubmit` asks for both images and no creation in progress; the
      guard of `createPost()` asks only for the images. */
  lemma CanSubmitNeedsBothImages(vm: PostCreationViewModel)
    ensures vm.CanSubmit() <==> vm.frontImageData.Some? && vm.backImageData.Some? && !vm.isCreating
    ensures vm.CanSubmit() ==> vm.HasBothImages()
  {
  }

  /** A caption typed in the form shows on the card of the post built from it
      exactly when it is not empty. */
  lemma FormCaptionShownIffNonEmpty(caption: string, front: Bytes, back: Bytes, user: User, gen: UseCases.GeneratedValues)
    ensures var post := UseCases.NewPost(user, NewCreatePostInput(front, back, CaptionForInput(caption)), gen);
            PostCard.CaptionText(post) == if caption == "" then None else Some(caption)
  {
  }

  /** A filled-in form submitted once: one input reaches the use case, with
      the caption (nil for an empty one); on failure the images stay and the
      form can be submitted again. */
  method SubmitFilledForm(front: Bytes, back: Bytes, caption: string, outcome: Result<Post>)
    returns (vm: PostCreationViewModel)
    ensures vm.submitted == [CreatePostInput(front, back, CaptionForInput(caption))]
    ensures !vm.isCreating
    ensures outcome.Success? ==> !vm.CanSubmit() && vm.errorMessage == None
    ensures outcome.Failure? ==> vm.CanSubmit() && vm.errorMessage.Some? && CreateErrorPrefix <= vm.errorMessage.value
  {
    vm := new PostCreationViewModel();
    vm.frontImageData, vm.backImageData, vm.caption := Some(front), Some(back), caption;
    assert vm.CanSubmit();
    vm.CreatePost(outcome);
  }
}
