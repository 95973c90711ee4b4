/**
 * The reference-products screen (SanphamScreen.kt): the product list fetched
 * once on entry, an error with a retry button, an empty-list text, and a grid
 * of product cards.
 */
module Products {
  import opened Wrappers
  import opened Text
  import opened Remote

  /** `ReferenceProduct`. */
  datatype Product = Product(id: int, name: string, description: Option<string>,
                             imageUrl: Option<string>, createdAt: Option<string>)

  const LoadErrorMessage := "Không thể tải danh sách sản phẩm tham khảo. Vui lòng thử lại."
  const EmptyMessage := "Hiện chưa có sản phẩm tham khảo nào."
  const NoImageText := "Không có ảnh"
  const PostedPrefix := "Đăng: "
  /** The image host of this screen, a different tunnel from the other screens'. */
  const BaseUrl := "https://" + "2629-2401-d800-f531-9420-9015-e99e-277c-272a.ngrok-free.app/mevabe_api/"

  /** The screen's remembered state. */
  class ProductScreen {
    var products: seq<Product>
    var isLoading: bool
    var errorMessage: Option<string>

    /** Loading from the start, with no error and no products. */
    constructor ()
      ensures products == [] && isLoading && errorMessage == None
    {
      products := [];
      isLoading := true;
      errorMessage := None;
    }

    /** The end of `fetchData`: the products and no error, or the fixed error and the old products. */
    method CompleteFetch(outcome: Outcome<seq<Product>>)
      modifies this
      ensures !isLoading
      ensures outcome.Ok? ==> products == outcome.value && errorMessage == None
      ensures outcome.Fail? ==> products == old(products) && errorMessage == Some(LoadErrorMessage)
    {
      match outcome {
        case Ok(data) =>
          products := data;
          isLoading := false;
          errorMessage := None;
        case Fail(_) =>
          errorMessage := Some(LoadErrorMessage);
          isLoading := false;
      }
    }

    /** "Thử lại", offered only on the error view: loading again, with no error and no products. */
    method Retry()
      requires Render(isLoading, errorMessage, products).ErrorRetry?
      modifies this
      ensures isLoading && errorMessage == None && products == []
    {
      isLoading := true;
      errorMessage := None;
      products := [];
    }
  }

  /** `fullImageUrl`: absolute http(s) addresses are kept, other paths go under the host. */
  function ImageUrl(imageUrl: Option<string>): (url: string)
    ensures imageUrl.None? ==> url == ""
    ensures imageUrl.Some? ==> EndsWith(url, imageUrl.value)
    ensures imageUrl.Some? ==>
      (url == imageUrl.value <==> StartsWith(imageUrl.value, "http://") || StartsWith(imageUrl.value, "https://"))
    ensures imageUrl.Some? && url != imageUrl.value ==>
      StartsWith(url, BaseUrl) && |url| == |BaseUrl| + |imageUrl.value|
  {
    match imageUrl
    case None => ""
    case Some(s) => if StartsWith(s, "http://") || StartsWith(s, "https://") then s else BaseUrl + s
  }

  /** The card shows a picture exactly when the product has an image field, and every picture address is absolute. */
  lemma ImageShownIff(imageUrl: Option<string>)
    ensures !IsBlank(ImageUrl(imageUrl)) <==> imageUrl.Some?
    ensures imageUrl.Some? ==> StartsWith(ImageUrl(imageUrl), "http://") || StartsWith(ImageUrl(imageUrl), "https://")
  {
    if imageUrl.Some? {
      var url := ImageUrl(imageUrl);
      if !(StartsWith(imageUrl.value, "http://") || StartsWith(imageUrl.value, "https://")) {
        assert url[..8] == BaseUrl[..8] == "https://";
      }
      assert url[0] == 'h';
    }
  }

  /** The picture area of a card. */
  datatype Picture = Image(url: string) | NoImage(text: string)

  /** What `ReferenceProductCard` shows. */
  datatype Card = Card(picture: Picture, name: string, description: Option<string>, posted: Option<string>)

  /** `"Đăng: " + createdAt.substringBefore(" ")`, when there is a date. */
  function PostedLine(createdAt: Option<string>): (line: Option<string>)
    ensures line.Some? <==> createdAt.Some?
    ensures line.Some? ==> |PostedPrefix| <= |line.value| && StartsWith(line.value, PostedPrefix)
    ensures line.Some? ==>
      var date := line.value[|PostedPrefix|..];
      && StartsWith(createdAt.value, date) && ' ' !in date
      && (|date| == |createdAt.value| || createdAt.value[|date|] == ' ')
  {
    match createdAt
    case None => None
    case Some(s) =>
      var date := SubstringBefore(s, ' ');
      assert (PostedPrefix + date)[|PostedPrefix|..] == date;
      Some(PostedPrefix + date)
  }

  function ProductCard(p: Product): (c: Card)
    ensures c.picture.Image? <==> p.imageUrl.Some?
    ensures c.picture.Image? ==> c.picture.url == ImageUrl(p.imageUrl)
    ensures c.picture.NoImage? ==> c.picture.text == NoImageText
    ensures c.name == p.name && c.description == p.description
    ensures c.posted == PostedLine(p.createdAt)
  {
    ImageShownIff(p.imageUrl);
    var url := ImageUrl(p.imageUrl);
    Card(if !IsBlank(url) then Image(url) else NoImage(NoImageText), p.name, p.description, PostedLine(p.createdAt))
  }

  /** What the screen's body shows. */
  datatype View = Spinner | ErrorRetry(message: string) | EmptyText(text: string) | Grid(cards: seq<Card>)

  /** Loading, then an error with its retry button, then the empty text, then the grid. */
  function Render(isLoading: bool, errorMessage: Option<string>, products: seq<Product>): (v: View)
    ensures v.Spinner? <==> isLoading
    ensures v.ErrorRetry? <==> !isLoading && errorMessage.Some?
    ensures v.ErrorRetry? ==> v.message == errorMessage.value
    ensures v.EmptyText? <==> !isLoading && errorMessage.None? && products == []
    ensures v.EmptyText? ==> v.text == EmptyMessage
    ensures v.Grid? ==> |v.cards| == |products| && forall i :: 0 <= i < |products| ==> v.cards[i] == ProductCard(products[i])
  {
    if isLoading then Spinner
    else if errorMessage.Some? then ErrorRetry(errorMessage.value)
    else if products == [] then EmptyText(EmptyMessage)
    else Grid(seq(|products|, i requires 0 <= i < |products| => ProductCard(products[i])))
  }

  /**
   * A retry that fails again shows the error again, and the products the
   * earlier fetch had are gone: the retry emptied them before the call.
   */
  method RetryThenFail(screen: ProductScreen, failure: Failure)
    requires Render(screen.isLoading, screen.errorMessage, screen.products).ErrorRetry?
    modifies screen
    ensures screen.products == []
    ensures Render(screen.isLoading, screen.errorMessage, screen.products) == ErrorRetry(LoadErrorMessage)
  {
    screen.Retry();
    screen.CompleteFetch(Fail(failure));
  }
}
