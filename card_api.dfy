/** The catalogue client (`CardAPI`): URLs for the card listing and the
    keyword search, and the mapping of the backend's page of cards onto the
    result the product list shows. URL encoding is a parameter. */
module CardApi {
  import opened Common

  const CardsBase: string := "http://localhost:8080/cards"
  /** `TotalCard`: cards per catalogue page. */
  const TotalCard: int := 4

  /** A card as the product list keeps it. */
  datatype Card = Card(cardId: int, name: string, description: Option<string>, price: int, url: string)

  /** A card as the backend sends it; `extra` stands for any further fields,
      which the client drops. */
  datatype CardJson = CardJson(cardId: int, name: string, description: Option<string>, price: int, url: string,
                               extra: seq<(string, string)>)

  /** `result` of a page reply; a field the backend leaves out is `None`. */
  datatype PageJson = PageJson(content: Option<seq<CardJson>>, totalPages: Option<int>, totalElements: Option<int>)

  /** What `my_Request` yields: a thrown error, a `null` body, or a body whose
      `result` may be missing. */
  datatype Reply<T> = Threw | NullBody | Json(result: Option<T>)

  /** `KetQuaResponse`: the cards, the page count and (despite its name) the
      total number of cards; `None` is `undefined`. */
  datatype KetQua = KetQua(ketqua: seq<Card>, tongSoTrang: Option<int>, soTheMotTrang: Option<int>)

  /** The query string for a zero-based page and a page size. */
  function Query(offset: int, size: int): string {
    "?page=" + IntToString(offset) + "&size=" + IntToString(size)
  }

  /** `getAllCard(page)`: the one-based page `page` is the backend's page `page - 1`. */
  function GetAllCardUrl(page: int): string {
    CardsBase + Query(page - 1, TotalCard)
  }

  /** `get1Card()`: the first card only. */
  function Get1CardUrl(): (url: string)
    ensures url == CardsBase + Query(0, 1)
  {
    "http://localhost:8080/cards?page=0&size=1"
  }

  /** `findCard(keyWord, page)`: the listing URL for a blank keyword, the
      name endpoint with the encoded trimmed keyword otherwise. */
  function FindCardUrl(encode: string -> string, keyWord: string, page: int): string {
    var trimmed := Trim(keyWord);
    var encodedKeyword := encode(trimmed);
    var offset := page - 1;
    if trimmed == "" then CardsBase + Query(offset, TotalCard)
    else CardsBase + "/name/" + encodedKeyword + Query(offset, TotalCard)
  }

  /** `findCard` asks for the same URL as `getAllCard` exactly when the
      keyword is blank (empty or whitespace only); otherwise it asks the name
      endpoint for the encoded trimmed keyword, on the same zero-based page. */
  lemma FindCardIsListingIffBlank(encode: string -> string, keyWord: string, page: int)
    ensures FindCardUrl(encode, keyWord, page) == GetAllCardUrl(page) <==> AllWhitespace(keyWord)
    ensures !AllWhitespace(keyWord) ==>
      FindCardUrl(encode, keyWord, page) == CardsBase + "/name/" + encode(Trim(keyWord)) + Query(page - 1, TotalCard)
  {
    TrimEmptyIffBlank(keyWord);
    if Trim(keyWord) != "" {
      var u := FindCardUrl(encode, keyWord, page);
      assert u[|CardsBase|] == '/';
      assert GetAllCardUrl(page)[|CardsBase|] == '?';
    }
  }

  /** The position of the first `c` in `s` (`|s|` when there is none). */
  function FirstIndex(s: string, c: char): nat {
    if s == [] || s[0] == c then 0 else 1 + FirstIndex(s[1..], c)
  }

  lemma {:induction false} FirstIndexAfterHead(x: string, y: string, c: char)
    requires forall i :: 0 <= i < |x| ==> x[i] != c
    ensures FirstIndex(x + [c] + y, c) == |x|
  {
    if x != [] {
      assert (x + [c] + y)[1..] == x[1..] + [c] + y;
      FirstIndexAfterHead(x[1..], y, c);
    }
  }

  /** Splitting at the first occurrence of a separator that neither head
      contains recovers both heads and both tails. */
  lemma SplitAtSeparator(x: string, y: string, x2: string, y2: string, c: char)
    requires x + [c] + y == x2 + [c] + y2
    requires forall i :: 0 <= i < |x| ==> x[i] != c
    requires forall i :: 0 <= i < |x2| ==> x2[i] != c
    ensures x == x2 && y == y2
  {
    var s := x + [c] + y;
    FirstIndexAfterHead(x, y, c);
    FirstIndexAfterHead(x2, y2, c);
    assert x == s[..|x|];
    assert x2 == s[..|x2|];
    assert y == s[|x| + 1..];
  }

  /** Distinct offsets or sizes give distinct query strings: both numbers are
      recoverable from the query. */
  lemma {:induction false} QueryInjective(o1: int, s1: int, o2: int, s2: int)
    requires Query(o1, s1) == Query(o2, s2)
    ensures o1 == o2 && s1 == s2
  {
    QueryParts(o1, s1);
    QueryParts(o2, s2);
    IntToStringHasNoAmpersand(o1);
    IntToStringHasNoAmpersand(o2);
    var c, d := "size=" + IntToString(s1), "size=" + IntToString(s2);
    SplitAtSeparator(IntToString(o1), c, IntToString(o2), d, '&');
    assert c[5..] == IntToString(s1) && d[5..] == IntToString(s2);
    IntToStringInjective(o1, o2);
    IntToStringInjective(s1, s2);
  }

  lemma QueryParts(offset: int, size: int)
    ensures Query(offset, size)[6..] == IntToString(offset) + "&" + ("size=" + IntToString(size))
  {
  }

  lemma IntToStringHasNoAmpersand(n: int)
    ensures forall i :: 0 <= i < |IntToString(n)| ==> IntToString(n)[i] != '&'
  {
  }

  /** Two catalogue pages share a URL only when they are the same page. */
  lemma GetAllCardUrlInjective(p1: int, p2: int)
    requires GetAllCardUrl(p1) == GetAllCardUrl(p2)
    ensures p1 == p2
  {
    var q1, q2 := Query(p1 - 1, TotalCard), Query(p2 - 1, TotalCard);
    assert q1 == GetAllCardUrl(p1)[|CardsBase|..];
    assert q2 == GetAllCardUrl(p2)[|CardsBase|..];
    QueryInjective(p1 - 1, TotalCard, p2 - 1, TotalCard);
  }

  /** The five copied fields of a backend card. */
  function Copy(c: CardJson): Card {
    Card(c.cardId, c.name, c.description, c.price, c.url)
  }

  /** `getResult(endpoint)` on the reply to that endpoint: one card per
      element of `content`, in order; a missing `content` gives no cards; a
      thrown error, or a `null` body (whose `result` cannot be read), gives
      the empty result with zero pages and zero cards. */
  method GetResult(reply: Reply<PageJson>) returns (r: KetQua)
    ensures reply.Threw? || reply.NullBody? ==> r == KetQua([], Some(0), Some(0))
    ensures reply.Json? && reply.result.None? ==> r == KetQua([], None, None)
    ensures reply.Json? && reply.result.Some? ==>
      var page := reply.result.value;
      var content := if page.content.Some? then page.content.value else [];
      && |r.ketqua| == |content|
      && (forall i :: 0 <= i < |content| ==> r.ketqua[i] == Copy(content[i]))
      && r.tongSoTrang == page.totalPages
      && r.soTheMotTrang == page.totalElements
  {
    var ketQua: seq<Card> := [];
    if !reply.Json? {
      return KetQua([], Some(0), Some(0));
    }
    var responseData := if reply.result.Some? && reply.result.value.content.Some?
      then reply.result.value.content.value else [];
    var tongSoTrang := if reply.result.Some? then reply.result.value.totalPages else None;
    var tongSoSach := if reply.result.Some? then reply.result.value.totalElements else None;
    var i := 0;
    while i < |responseData|
      invariant 0 <= i <= |responseData|
      invariant |ketQua| == i
      invariant forall j :: 0 <= j < i ==> ketQua[j] == Copy(responseData[j])
    {
      ketQua := ketQua + [Copy(responseData[i])];
      i := i + 1;
    }
    r := KetQua(ketQua, tongSoTrang, tongSoSach);
  }

  /** `getById(cardId)` on the reply: the five copied fields of `result`, or
      `None` (`null`) when the call throws or there is no card to read. */
  function GetById(reply: Reply<CardJson>): (r: Option<Card>)
    ensures r.Some? <==> reply.Json? && reply.result.Some?
    ensures r.Some? ==> var c := reply.result.value;
      r.value.cardId == c.cardId && r.value.name == c.name && r.value.description == c.description
      && r.value.price == c.price && r.value.url == c.url
  {
    match reply
    case Json(Some(c)) => Some(Copy(c))
    case _ => None
  }

  /** `getById` URL: the card's id follows the cards' `/id/` path and can
      be read back from it. */
  function GetByIdUrl(cardId: int): (url: string)
    ensures StartsWith(url, CardsBase + "/id/")
  {
    CardsBase + "/id/" + IntToString(cardId)
  }

  /** The id parses back from what follows the `/id/` path. */
  lemma GetByIdUrlId(cardId: int)
    ensures ParseInt(GetByIdUrl(cardId)[|CardsBase + "/id/"|..]) == Some(cardId)
  {
    assert GetByIdUrl(cardId)[|CardsBase + "/id/"|..] == IntToString(cardId);
    ParseIntOfIntToString(cardId);
  }

  /** Different cards are fetched from different URLs. */
  lemma GetByIdUrlInjective(a: int, b: int)
    requires GetByIdUrl(a) == GetByIdUrl(b)
    ensures a == b
  {
    GetByIdUrlId(a);
    GetByIdUrlId(b);
  }
}
