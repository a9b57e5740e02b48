/**
 * The wishlist: rows pairing a user with a product, at most one row per pair.
 * Adding checks for the pair before it looks the product up; removing
 * deletes whatever rows hold the pair and never fails.
 */
module WishlistService {
  import opened Model
  import opened Strings
  import opened Store

  /** `findByUserIdAndProductId(u, key).isPresent()`. */
  predicate HasPair(rows: seq<WishlistItem>, u: UserId, key: ProductKey) {
    exists i :: 0 <= i < |rows| && rows[i].userId == u && rows[i].productId == key
  }

  /** `addItemToWishlist`. */
  method AddItemToWishlist(db: Database, u: UserId, key: ProductKey) returns (r: Result<WishlistItem>)
    requires db.Valid()
    modifies db
    ensures db.Valid()
    ensures var t := old(db.State());
      if HasPair(t.wishlist, u, key) then r == Err(AlreadyInWishlist) && db.State() == t
      else if key !in t.products then r == Err(ProductNotFound) && db.State() == t
      else
        && r == Ok(WishlistItem(t.nextWishlistId, u, key))
        && db.State() == t.(wishlist := t.wishlist + [r.value], nextWishlistId := t.nextWishlistId + 1)
  {
    if HasPair(db.wishlist, u, key) {
      return Err(AlreadyInWishlist);
    }
    if key !in db.products {
      return Err(ProductNotFound);
    }
    var item := WishlistItem(db.nextWishlistId, u, key);
    AddKeepsUniquePairs(db.wishlist, item);
    db.wishlist := db.wishlist + [item];
    db.nextWishlistId := db.nextWishlistId + 1;
    r := Ok(item);
  }

  /** A row for a pair not yet present keeps every pair unique. */
  lemma AddKeepsUniquePairs(rows: seq<WishlistItem>, item: WishlistItem)
    requires UniquePairs(rows) && !HasPair(rows, item.userId, item.productId)
    ensures UniquePairs(rows + [item])
  {
    var rows' := rows + [item];
    forall i, j | 0 <= i < j < |rows'|
      ensures rows'[i].userId != rows'[j].userId || rows'[i].productId != rows'[j].productId
    {
      if j == |rows| {
        assert rows'[i] == rows[i];
      }
    }
  }

  /** `findByUserId`: the user's rows, in table order. */
  function ForUser(rows: seq<WishlistItem>, u: UserId): (r: seq<WishlistItem>)
    ensures forall x :: x in r <==> x in rows && x.userId == u
    ensures |r| <= |rows|
    decreases |rows|
  {
    if rows == [] then []
    else (if rows[0].userId == u then [rows[0]] else []) + ForUser(rows[1..], u)
  }

  /** `getWishlist`: exactly the rows of user `u`. */
  function GetWishlist(db: Database, u: UserId): (r: seq<WishlistItem>)
    reads db
    ensures forall x :: x in r <==> x in db.wishlist && x.userId == u
  {
    ForUser(db.wishlist, u)
  }

  /** `deleteByUserIdAndProductId`: every row but those holding the pair, in table order. */
  function Without(rows: seq<WishlistItem>, u: UserId, key: ProductKey): (r: seq<WishlistItem>)
    ensures forall x :: x in r <==> x in rows && !(x.userId == u && x.productId == key)
    ensures |r| <= |rows|
    decreases |rows|
  {
    if rows == [] then []
    else (if rows[0].userId == u && rows[0].productId == key then [] else [rows[0]]) + Without(rows[1..], u, key)
  }

  /** Deleting a pair twice is deleting it once. */
  lemma {:induction false} WithoutIdempotent(rows: seq<WishlistItem>, u: UserId, key: ProductKey)
    ensures Without(Without(rows, u, key), u, key) == Without(rows, u, key)
    decreases |rows|
  {
    if rows != [] {
      WithoutIdempotent(rows[1..], u, key);
      var rest := Without(rows[1..], u, key);
      if rows[0].userId == u && rows[0].productId == key {
        assert [] + rest == rest;
      } else {
        var r := [rows[0]] + rest;
        assert r[0] == rows[0] && r[1..] == rest;
      }
    }
  }

  /** Deleting a pair that is not there changes nothing. */
  lemma {:induction false} WithoutAbsent(rows: seq<WishlistItem>, u: UserId, key: ProductKey)
    requires !HasPair(rows, u, key)
    ensures Without(rows, u, key) == rows
    decreases |rows|
  {
    if rows != [] {
      assert !HasPair(rows[1..], u, key) by {
        forall i | 0 <= i < |rows[1..]|
          ensures !(rows[1..][i].userId == u && rows[1..][i].productId == key)
        {
          assert rows[1..][i] == rows[i + 1];
        }
      }
      WithoutAbsent(rows[1..], u, key);
      assert [rows[0]] + rows[1..] == rows;
    }
  }

  /** `x` and `y` hold the same (user, product) pair. */
  predicate SamePair(x: WishlistItem, y: WishlistItem) {
    x.userId == y.userId && x.productId == y.productId
  }

  /** The rows after the first of a list with unique pairs have unique pairs and none holds the first row's pair. */
  lemma UniqueTail(rows: seq<WishlistItem>)
    requires rows != [] && UniquePairs(rows)
    ensures UniquePairs(rows[1..])
    ensures forall y :: y in rows[1..] ==> !SamePair(rows[0], y)
  {
    forall y | y in rows[1..]
      ensures !SamePair(rows[0], y)
    {
      var k :| 0 <= k < |rows[1..]| && rows[1..][k] == y;
      assert rows[k + 1] == y;
    }
  }

  /** A row whose pair no later row holds, in front of rows with unique pairs, keeps them unique. */
  lemma UniqueCons(x: WishlistItem, rest: seq<WishlistItem>)
    requires UniquePairs(rest) && forall y :: y in rest ==> !SamePair(x, y)
    ensures UniquePairs([x] + rest)
  {
    var r := [x] + rest;
    forall i, j | 0 <= i < j < |r|
      ensures r[i].userId != r[j].userId || r[i].productId != r[j].productId
    {
      assert r[j] == rest[j - 1];
      if i > 0 {
        assert r[i] == rest[i - 1];
      } else {
        assert r[0] == x && rest[j - 1] in rest;
      }
    }
  }

  /** Deleting keeps every pair unique. */
  lemma {:induction false} WithoutKeepsUniquePairs(rows: seq<WishlistItem>, u: UserId, key: ProductKey)
    requires UniquePairs(rows)
    ensures UniquePairs(Without(rows, u, key))
    decreases |rows|
  {
    if rows != [] {
      UniqueTail(rows);
      WithoutKeepsUniquePairs(rows[1..], u, key);
      if !(rows[0].userId == u && rows[0].productId == key) {
        UniqueCons(rows[0], Without(rows[1..], u, key));
      }
    }
  }

  /** `removeItemFromWishlist`: the pair is gone afterwards, every other row stays. */
  method RemoveItemFromWishlist(db: Database, u: UserId, productId: int)
    requires db.Valid()
    modifies db
    ensures db.Valid()
    ensures db.State() == old(db.State()).(wishlist := Without(old(db.wishlist), u, Decimal(productId)))
  {
    var key := Decimal(productId);
    WithoutKeepsUniquePairs(db.wishlist, u, key);
    var rows := Without(db.wishlist, u, key);
    forall i | 0 <= i < |rows|
      ensures rows[i].productId in db.products && rows[i].id < db.nextWishlistId
    {
      assert rows[i] in db.wishlist;
    }
    db.wishlist := rows;
  }

  /** After a removal the pair is absent, and removing it again changes nothing. */
  lemma RemoveThenAbsent(rows: seq<WishlistItem>, u: UserId, key: ProductKey)
    ensures !HasPair(Without(rows, u, key), u, key)
    ensures Without(Without(rows, u, key), u, key) == Without(rows, u, key)
  {
    WithoutIdempotent(rows, u, key);
  }
}
