/** The domain records: users, posts, and the input of post creation. */
module Domain {
  import opened Wrappers

  /** Image bytes (Foundation's `Data`). */
  type Bytes = seq<bv8>

  /** A `CLLocation`, reduced to its coordinates. */
  datatype Location = Location(latitude: real, longitude: real)

  /** A user; UUIDs and URLs are their strings. */
  datatype User = User(
    id: string,
    username: string,
    displayName: string,
    profileImageURL: Option<string>)

  /** A post: a front/back camera pair with optional caption and lateness.
      `timestamp` is in whole seconds. */
  datatype Post = Post(
    id: string,
    user: User,
    frontImageURL: string,
    backImageURL: string,
    caption: Option<string>,
    location: Option<Location>,
    timestamp: int,
    isLate: bool,
    lateByMinutes: Option<int>)

  /** What the post-creation form hands to the create-post use case. */
  datatype CreatePostInput = CreatePostInput(
    frontImageData: Bytes,
    backImageData: Bytes,
    caption: Option<string>)

  /** `CreatePostInput(frontImageData:backImageData:caption:)`, whose caption defaults to nil. */
  function NewCreatePostInput(frontImageData: Bytes, backImageData: Bytes, caption: Option<string> := None): CreatePostInput
  {
    CreatePostInput(frontImageData, backImageData, caption)
  }

  /** Leaving the caption out gives an input without a caption. */
  lemma DefaultCaptionIsNone(frontImageData: Bytes, backImageData: Bytes)
    ensures NewCreatePostInput(frontImageData, backImageData).caption == None
  {
  }
}
