/** src/pages/Hopper.tsx: the feed page. Its composer keeps a draft;
    posting a blank draft is refused, posting any other draft clears it. The
    feed below is a fixed list. */
module Hopper {
  import opened Common
  import opened JsText

  /** The identifying part of a feed entry. */
  datatype Post = Post(id: nat, username: string, handle: string)

  /** The fixed feed the page renders. */
  const MockPosts: seq<Post> := [
    Post(1, "Lily Pad", "lilypad"),
    Post(2, "Hoppy", "hopmaster"),
    Post(3, "TechToad", "techtoad")]

  class HopperPage {
    var newPost: string
    const posts: seq<Post>

    constructor ()
      ensures newPost == "" && posts == MockPosts
    {
      newPost := "";
      posts := MockPosts;
    }

    method EditDraft(text: string)
      modifies this`newPost
      ensures newPost == text
    {
      newPost := text;
    }

    /** `handleCreatePost`: a draft that trims to nothing is refused with a
      destructive notice and kept; any other draft, surrounding whitespace
      included, is accepted and cleared. The feed is not touched. */
    method CreatePost() returns (notice: Notice)
      modifies this`newPost
      ensures IsBlank(old(newPost)) ==>
        newPost == old(newPost) && notice == ErrorNotice("Can't create empty post")
      ensures !IsBlank(old(newPost)) ==>
        newPost == "" && notice == SuccessNotice("Post created!")
    {
      TrimEmptyIffBlank(newPost);
      if Trim(newPost) == "" {
        return ErrorNotice("Can't create empty post");
      }
      notice := SuccessNotice("Post created!");
      newPost := "";
    }
  }
}
