/** Product reviews (EcommerceBe/Services/ReviewService.cs over
    EcommerceBe/Repositories/ReviewRepository.cs): the guards in front of
    adding, deleting and replying to a review, the review table they change,
    and the rule that a user reviews a product at most once. Errors are the
    exception messages the controller hands back; fresh GUIDs and the clock
    are parameters. */
module ReviewService {
  import opened Common

  /** Review; SellerReply and SellerReplyAt are nullable. */
  datatype Review = Review(reviewId: Guid, userId: Guid, productId: Guid, rating: int, comment: string,
                           createAt: int, sellerReply: Option<string>, sellerReplyAt: Option<int>)

  /** CreateReviewDto. */
  datatype CreateReviewDto = CreateReviewDto(productId: Guid, rating: int, comment: string)

  /** CreateReviewReplyDto; Reply may be null. */
  datatype ReplyDto = ReplyDto(reviewId: Guid, reply: Option<string>)

  /** ReviewDto. */
  datatype ReviewDto = ReviewDto(reviewId: Guid, userId: Guid, userName: string, productId: Guid, rating: int,
                                 comment: string, createAt: int)

  /** No user has two reviews of the same product. */
  predicate OneReviewEach(reviews: seq<Review>)
  {
    forall i, j ::
      (0 <= i < |reviews| && 0 <= j < |reviews| && reviews[i].userId == reviews[j].userId &&
       reviews[i].productId == reviews[j].productId) ==> i == j
  }

  /** GetByIdAsync: the first review with the id, or |reviews|. */
  function FindReview(reviews: seq<Review>, reviewId: Guid): (i: nat)
    ensures i <= |reviews|
    ensures i < |reviews| ==> reviews[i].reviewId == reviewId
    ensures forall k :: 0 <= k < i ==> reviews[k].reviewId != reviewId
  {
    if reviews == [] then 0
    else if reviews[0].reviewId == reviewId then 0
    else 1 + FindReview(reviews[1..], reviewId)
  }

  /** GetByUserAndProductAsync: the first review by the user of the product, or |reviews|. */
  function FindByUserAndProduct(reviews: seq<Review>, userId: Guid, productId: Guid): (i: nat)
    ensures i <= |reviews|
    ensures i < |reviews| ==> reviews[i].userId == userId && reviews[i].productId == productId
    ensures forall k :: 0 <= k < i ==> !(reviews[k].userId == userId && reviews[k].productId == productId)
  {
    if reviews == [] then 0
    else if reviews[0].userId == userId && reviews[0].productId == productId then 0
    else 1 + FindByUserAndProduct(reviews[1..], userId, productId)
  }

  /** The guards of AddReviewAsync, in their order: the error the request
      fails with, or None when the review may be stored. */
  function AddReviewError(reviews: seq<Review>, users: map<Guid, string>, products: set<Guid>, userId: Guid,
                          dto: Option<CreateReviewDto>): (e: Option<string>)
    ensures e.None? <==>
      (&& dto.Some? && dto.value.productId != EmptyGuid && 1 <= dto.value.rating <= 5
       && userId in users && dto.value.productId in products
       && forall r :: r in reviews ==> !(r.userId == userId && r.productId == dto.value.productId))
    ensures dto.Some? && !(1 <= dto.value.rating <= 5) ==> e.Some?
  {
    if dto.None? then Some("Value cannot be null. (Parameter 'dto')")
    else if dto.value.productId == EmptyGuid then Some("ProductId must not be empty. (Parameter 'ProductId')")
    else if dto.value.rating < 1 || dto.value.rating > 5 then Some("Rating must be between 1 and 5. (Parameter 'Rating')")
    else if userId !in users then Some("User not found.")
    else if dto.value.productId !in products then Some("Product not found.")
    else if FindByUserAndProduct(reviews, userId, dto.value.productId) < |reviews| then
      Some("User has already reviewed this product.")
    else None
  }

  /** The review AddReviewAsync stores. */
  function NewReview(userId: Guid, dto: CreateReviewDto, reviewId: Guid, now: int): Review
  {
    Review(reviewId, userId, dto.productId, dto.rating, dto.comment, now, None, None)
  }

  /** An accepted review keeps one review per user and product, and what is
      stored is the rating and comment given, by that user, of that product,
      with its rating in 1..5. */
  lemma AddedKeepsOneReviewEach(reviews: seq<Review>, users: map<Guid, string>, products: set<Guid>, userId: Guid,
                                dto: CreateReviewDto, reviewId: Guid, now: int)
    requires OneReviewEach(reviews)
    requires AddReviewError(reviews, users, products, userId, Some(dto)).None?
    ensures OneReviewEach(reviews + [NewReview(userId, dto, reviewId, now)])
    ensures var r := NewReview(userId, dto, reviewId, now);
      r.userId == userId && r.productId == dto.productId && r.rating == dto.rating && r.comment == dto.comment &&
      1 <= r.rating <= 5
  {
    var rs := reviews + [NewReview(userId, dto, reviewId, now)];
    assert forall k :: 0 <= k < |reviews| ==> rs[k] == reviews[k] && reviews[k] in reviews;
  }

  /** A second review of the same product by the same user is refused. */
  lemma SecondReviewRefused(reviews: seq<Review>, users: map<Guid, string>, products: set<Guid>, userId: Guid,
                            dto: CreateReviewDto, reviewId: Guid, now: int)
    requires AddReviewError(reviews, users, products, userId, Some(dto)).None?
    ensures AddReviewError(reviews + [NewReview(userId, dto, reviewId, now)], users, products, userId, Some(dto)) ==
            Some("User has already reviewed this product.")
  {
    var rs := reviews + [NewReview(userId, dto, reviewId, now)];
    assert rs[|reviews|] in rs;
  }

  /** The table without the entry at i. */
  function Without(reviews: seq<Review>, i: nat): (r: seq<Review>)
    requires i < |reviews|
    ensures |r| == |reviews| - 1
    ensures multiset(r) + multiset{reviews[i]} == multiset(reviews)
  {
    assert reviews == reviews[..i] + [reviews[i]] + reviews[i + 1..];
    reviews[..i] + reviews[i + 1..]
  }

  /** Deleting keeps one review per user and product. */
  lemma WithoutKeepsOneReviewEach(reviews: seq<Review>, i: nat)
    requires i < |reviews|
    requires OneReviewEach(reviews)
    ensures OneReviewEach(Without(reviews, i))
  {
    var r := Without(reviews, i);
    forall a, b | 0 <= a < |r| && 0 <= b < |r| && r[a].userId == r[b].userId && r[a].productId == r[b].productId
      ensures a == b
    {
      var a' := if a < i then a else a + 1;
      var b' := if b < i then b else b + 1;
      assert r[a] == reviews[a'] && r[b] == reviews[b'];
    }
  }

  /** A review with its seller reply set, or cleared when reply is None. */
  function Replied(r: Review, reply: Option<string>, at: Option<int>): Review
  {
    r.(sellerReply := reply, sellerReplyAt := at)
  }

  /** Setting or clearing a reply changes no author, product or rating, so it
      keeps one review per user and product. */
  lemma RepliedKeepsOneReviewEach(reviews: seq<Review>, i: nat, reply: Option<string>, at: Option<int>)
    requires i < |reviews|
    requires OneReviewEach(reviews)
    ensures OneReviewEach(reviews[i := Replied(reviews[i], reply, at)])
  {
    var r := reviews[i := Replied(reviews[i], reply, at)];
    assert forall k :: 0 <= k < |r| ==> r[k].userId == reviews[k].userId && r[k].productId == reviews[k].productId;
  }

  /** The guards of DeleteReviewAsync: the error, or None. */
  function DeleteReviewError(reviews: seq<Review>, reviewId: Guid, userId: Guid): (e: Option<string>)
    ensures e.None? <==>
      reviewId != EmptyGuid && userId != EmptyGuid && FindReview(reviews, reviewId) < |reviews| &&
      reviews[FindReview(reviews, reviewId)].userId == userId
  {
    if reviewId == EmptyGuid || userId == EmptyGuid then Some("ReviewId and UserId must not be empty.")
    else
      var i := FindReview(reviews, reviewId);
      if i == |reviews| || reviews[i].userId != userId then
        Some("Review not found or user is not authorized to delete this review.")
      else None
  }

  /** The guards of AddSellerReplyAsync: the error, or None. */
  function AddReplyError(reviews: seq<Review>, sellerId: Guid, dto: Option<ReplyDto>): (e: Option<string>)
    ensures e.None? <==>
      dto.Some? && dto.value.reviewId != EmptyGuid && dto.value.reply.Some? && !IsBlank(dto.value.reply.value) &&
      sellerId != EmptyGuid && FindReview(reviews, dto.value.reviewId) < |reviews|
  {
    if dto.None? then Some("Value cannot be null. (Parameter 'dto')")
    else if dto.value.reviewId == EmptyGuid then Some("ReviewId must not be empty. (Parameter 'ReviewId')")
    else if dto.value.reply.None? || IsBlank(dto.value.reply.value) then Some("Reply cannot be empty. (Parameter 'Reply')")
    else if sellerId == EmptyGuid then Some("SellerId must not be empty. (Parameter 'sellerId')")
    else if FindReview(reviews, dto.value.reviewId) == |reviews| then Some("Review not found.")
    else None
  }

  /** The guards of DeleteSellerReplyAsync: the error, or None. */
  function DeleteReplyError(reviews: seq<Review>, sellerId: Guid, reviewId: Guid): (e: Option<string>)
    ensures e.None? <==> reviewId != EmptyGuid && sellerId != EmptyGuid && FindReview(reviews, reviewId) < |reviews|
  {
    if reviewId == EmptyGuid then Some("ReviewId must not be empty. (Parameter 'reviewId')")
    else if sellerId == EmptyGuid then Some("SellerId must not be empty. (Parameter 'sellerId')")
    else if FindReview(reviews, reviewId) == |reviews| then Some("Review not found.")
    else None
  }

  /** The reviews of one product, or of one user. The model keeps table order;
      the source's queries have no OrderBy and fix none. */
  function Matching(reviews: seq<Review>, byProduct: bool, id: Guid): (r: seq<Review>)
    ensures forall x :: x in r <==> x in reviews && (if byProduct then x.productId else x.userId) == id
  {
    if reviews == [] then []
    else
      (if (if byProduct then reviews[0].productId else reviews[0].userId) == id then [reviews[0]] else [])
      + Matching(reviews[1..], byProduct, id)
  }

  /** The author's name a listing shows: r.user?.Username ?? "Unknown". Only
      the by-product query loads the author (GetByProductIdAsync includes
      r.user, GetByUserIdAsync does not), so the by-user listing always
      shows "Unknown". */
  function AuthorName(r: Review, users: map<Guid, string>, authorLoaded: bool): string
  {
    if authorLoaded && r.userId in users then users[r.userId] else "Unknown"
  }

  /** The DTO of a review in a listing. */
  function ToDto(r: Review, users: map<Guid, string>, authorLoaded: bool): ReviewDto
  {
    ReviewDto(r.reviewId, r.userId, AuthorName(r, users, authorLoaded), r.productId, r.rating, r.comment, r.createAt)
  }

  /** The review store: the Reviews table and the user and product rows the
      guards look up. */
  class ReviewStore {
    var reviews: seq<Review>
    var users: map<Guid, string>
    var products: set<Guid>

    constructor (reviews: seq<Review>, users: map<Guid, string>, products: set<Guid>)
      ensures this.reviews == reviews && this.users == users && this.products == products
    {
      this.reviews := reviews;
      this.users := users;
      this.products := products;
    }

    /** AddReviewAsync. */
    method AddReview(userId: Guid, dto: Option<CreateReviewDto>, reviewId: Guid, now: int) returns (r: Outcome<()>)
      modifies this
      ensures users == old(users) && products == old(products)
      ensures var e := AddReviewError(old(reviews), old(users), old(products), userId, dto);
        (e.Some? ==> r == Err(e.value) && reviews == old(reviews)) &&
        (e.None? ==> r == Ok(()) && reviews == old(reviews) + [NewReview(userId, dto.value, reviewId, now)])
    {
      var e := AddReviewError(reviews, users, products, userId, dto);
      if e.Some? {
        return Err(e.value);
      }
      reviews := reviews + [NewReview(userId, dto.value, reviewId, now)];
      r := Ok(());
    }

    /** DeleteReviewAsync: only the author may delete. */
    method DeleteReview(reviewId: Guid, userId: Guid) returns (r: Outcome<()>)
      modifies this
      ensures users == old(users) && products == old(products)
      ensures var e := DeleteReviewError(old(reviews), reviewId, userId);
        (e.Some? ==> r == Err(e.value) && reviews == old(reviews)) &&
        (e.None? ==> r == Ok(()) && reviews == Without(old(reviews), FindReview(old(reviews), reviewId)))
    {
      var e := DeleteReviewError(reviews, reviewId, userId);
      if e.Some? {
        return Err(e.value);
      }
      var i := FindReview(reviews, reviewId);
      reviews := reviews[..i] + reviews[i + 1..];
      r := Ok(());
    }

    /** AddSellerReplyAsync: the reply and its time are stored on the review. */
    method AddSellerReply(sellerId: Guid, dto: Option<ReplyDto>, now: int) returns (r: Outcome<()>)
      modifies this
      ensures users == old(users) && products == old(products)
      ensures var e := AddReplyError(old(reviews), sellerId, dto);
        (e.Some? ==> r == Err(e.value) && reviews == old(reviews)) &&
        (e.None? ==>
           var i := FindReview(old(reviews), dto.value.reviewId);
           r == Ok(()) && reviews == old(reviews)[i := Replied(old(reviews)[i], dto.value.reply, Some(now))])
    {
      var e := AddReplyError(reviews, sellerId, dto);
      if e.Some? {
        return Err(e.value);
      }
      var i := FindReview(reviews, dto.value.reviewId);
      reviews := reviews[i := reviews[i].(sellerReply := dto.value.reply, sellerReplyAt := Some(now))];
      r := Ok(());
    }

    /** DeleteSellerReplyAsync: the reply and its time are cleared. */
    method DeleteSellerReply(sellerId: Guid, reviewId: Guid) returns (r: Outcome<()>)
      modifies this
      ensures users == old(users) && products == old(products)
      ensures var e := DeleteReplyError(old(reviews), sellerId, reviewId);
        (e.Some? ==> r == Err(e.value) && reviews == old(reviews)) &&
        (e.None? ==>
           var i := FindReview(old(reviews), reviewId);
           r == Ok(()) && reviews == old(reviews)[i := Replied(old(reviews)[i], None, None)])
    {
      var e := DeleteReplyError(reviews, sellerId, reviewId);
      if e.Some? {
        return Err(e.value);
      }
      var i := FindReview(reviews, reviewId);
      reviews := reviews[i := reviews[i].(sellerReply := None, sellerReplyAt := None)];
      r := Ok(());
    }

    /** GetReviewsByProductAsync and GetReviewsByUserAsync: refused for the
        empty GUID; otherwise the matching reviews as DTOs. */
    function ListReviews(byProduct: bool, id: Guid): (r: Outcome<seq<ReviewDto>>)
      reads this
      ensures r.Err? <==> id == EmptyGuid
      ensures r.Ok? ==>
        |r.value| == |Matching(reviews, byProduct, id)| &&
        forall k :: 0 <= k < |r.value| ==>
          var src := Matching(reviews, byProduct, id)[k];
          && r.value[k].reviewId == src.reviewId
          && r.value[k].userId == src.userId
          && r.value[k].productId == src.productId
          && r.value[k].rating == src.rating
          && r.value[k].comment == src.comment
          && r.value[k].createAt == src.createAt
          && (if byProduct then r.value[k].productId else r.value[k].userId) == id
          && r.value[k].userName == (if byProduct && src.userId in users then users[src.userId] else "Unknown")
    {
      if id == EmptyGuid then
        Err(if byProduct then "ProductId must not be empty. (Parameter 'productId')"
            else "UserId must not be empty. (Parameter 'userId')")
      else
        var list := Matching(reviews, byProduct, id);
        var names := users;
        assert forall k :: 0 <= k < |list| ==> list[k] in list;
        Ok(seq(|list|, k requires 0 <= k < |list| => ToDto(list[k], names, byProduct)))
    }
  }
}
