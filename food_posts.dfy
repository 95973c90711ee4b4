/**
 * The pregnancy-food posts screen (DauAnThaiKyScreen.kt): the posts loaded
 * once on entry, a spinner, a "no posts" text, and one card per post.
 */
module FoodPosts {
  import opened Wrappers
  import opened Text
  import opened Remote

  /** `FoodPost`. */
  datatype FoodPost = FoodPost(id: int, name: string, imageUrl: Option<string>, category: Option<string>,
                               description: Option<string>, nutrition: Option<string>, benefits: Option<string>,
                               createdAt: string)

  const EmptyMessage := "Không có bài viết nào để hiển thị."
  /** The image host, written in the source with two leading spaces. */
  const BaseImageUrl := "  " + ApiRoot

  /** The screen's remembered state; a failed load is only logged, so there is no error field. */
  class FoodPostScreen {
    var posts: seq<FoodPost>
    var isLoading: bool

    /** Loading from the start, with no posts. */
    constructor ()
      ensures posts == [] && isLoading
    {
      posts := [];
      isLoading := true;
    }

    /** The end of the load: the posts on success, nothing new on failure, and loading over either way. */
    method CompleteLoad(outcome: Outcome<seq<FoodPost>>)
      modifies this
      ensures !isLoading
      ensures outcome.Ok? ==> posts == outcome.value
      ensures outcome.Fail? ==> posts == old(posts)
    {
      if outcome.Ok? {
        posts := outcome.value;
      }
      isLoading := false;
    }
  }

  /** `fullImageUrl`: a non-empty path not starting with "http" goes under the host; anything else is kept, null as "". */
  function ImageUrl(imageUrl: Option<string>): (url: string)
    ensures imageUrl.None? ==> url == ""
    ensures imageUrl.Some? ==> EndsWith(url, imageUrl.value)
    ensures imageUrl.Some? ==> (url == imageUrl.value <==> imageUrl.value == "" || StartsWith(imageUrl.value, "http"))
    ensures imageUrl.Some? && url != imageUrl.value ==>
      StartsWith(url, BaseImageUrl) && |url| == |BaseImageUrl| + |imageUrl.value|
  {
    if imageUrl.Some? && imageUrl.value != "" && !StartsWith(imageUrl.value, "http") then BaseImageUrl + imageUrl.value
    else imageUrl.GetOr("")
  }

  /**
   * The picture is drawn exactly when the post has a non-empty image field;
   * a relative path becomes an address that starts with two spaces.
   */
  lemma ImageShownIff(imageUrl: Option<string>)
    ensures !IsBlank(ImageUrl(imageUrl)) <==> imageUrl.Some? && imageUrl.value != ""
    ensures imageUrl.Some? && imageUrl.value != "" && !StartsWith(imageUrl.value, "http") ==>
      ImageUrl(imageUrl)[..2] == "  "
  {
    if imageUrl.Some? && imageUrl.value != "" {
      var url := ImageUrl(imageUrl);
      if StartsWith(imageUrl.value, "http") {
        assert url[0] == 'h';
      } else {
        assert url[..2] == "  ";
        assert url[2] == 'h';
      }
    }
  }

  /** What `FoodPostCard` shows; each optional line is there only when its field is. */
  datatype Card = Card(name: string, image: Option<string>, description: Option<string>, nutrition: Option<string>,
                       benefits: Option<string>, category: Option<string>, posted: string)

  /** The optional line `prefix + value`, present with the value. */
  function Line(prefix: string, value: Option<string>): (line: Option<string>)
    ensures line.Some? <==> value.Some?
    ensures line.Some? ==>
      && |line.value| == |prefix| + |value.value| && StartsWith(line.value, prefix)
      && line.value[|prefix|..] == value.value
  {
    match value
    case None => None
    case Some(v) =>
      assert (prefix + v)[..|prefix|] == prefix && (prefix + v)[|prefix|..] == v;
      Some(prefix + v)
  }

  function FoodPostCard(p: FoodPost): (c: Card)
    ensures c.image.Some? <==> p.imageUrl.Some? && p.imageUrl.value != ""
    ensures c.image.Some? ==> c.image.value == ImageUrl(p.imageUrl)
    ensures c.description.Some? <==> p.description.Some?
    ensures c.nutrition.Some? <==> p.nutrition.Some?
    ensures c.benefits.Some? <==> p.benefits.Some?
    ensures c.category.Some? <==> p.category.Some?
  {
    ImageShownIff(p.imageUrl);
    var url := ImageUrl(p.imageUrl);
    Card(p.name, if !IsBlank(url) then Some(url) else None,
         Line("Mô tả: ", p.description), Line("Dinh dưỡng: ", p.nutrition),
         Line("Lợi ích: ", p.benefits), Line("Loại: ", p.category),
         "Ngày đăng: " + p.createdAt)
  }

  /** What the screen's body shows. */
  datatype View = Spinner | EmptyText(text: string) | PostList(cards: seq<Card>)

  /** Loading, then the "no posts" text, then the cards. */
  function Render(isLoading: bool, posts: seq<FoodPost>): (v: View)
    ensures v.Spinner? <==> isLoading
    ensures v.EmptyText? <==> !isLoading && posts == []
    ensures v.EmptyText? ==> v.text == EmptyMessage
    ensures v.PostList? ==> |v.cards| == |posts| && forall i :: 0 <= i < |posts| ==> v.cards[i] == FoodPostCard(posts[i])
  {
    if isLoading then Spinner
    else if posts == [] then EmptyText(EmptyMessage)
    else PostList(seq(|posts|, i requires 0 <= i < |posts| => FoodPostCard(posts[i])))
  }

  /** A failed load and an empty answer look the same: both show the "no posts" text. */
  method LoadOnEntry(outcome: Outcome<seq<FoodPost>>) returns (v: View)
    ensures v.EmptyText? <==> outcome.Fail? || outcome.value == []
    ensures v.PostList? <==> outcome.Ok? && outcome.value != []
  {
    var screen := new FoodPostScreen();
    screen.CompleteLoad(outcome);
    v := Render(screen.isLoading, screen.posts);
  }
}
