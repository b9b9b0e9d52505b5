/** The admin card manager (`ManageCard`): the card list with its paging and
    search state, the create/edit form, and the requests it sends. URL
    encoding is a parameter; replies are inputs. */
module ManageCard {
  import opened Common
  import CardApi

  /** Cards per admin page (`PAGE_SIZE`). */
  const PageSize: int := 4

  datatype AdminCard = AdminCard(cardId: int, name: string, description: string, price: int, url: string)

  /** The modal's form; `file` is the chosen image, if any. */
  datatype Form = Form(name: string, description: string, price: int, file: Option<string>)

  const EmptyForm: Form := Form("", "", 0, None)

  /** The reply to a list request: a failure, or `result` with fields that
      may be missing. */
  datatype ListReply = ListFailed | ListOk(content: Option<seq<AdminCard>>, totalPages: Option<int>)

  /** A write request: verb, path and the `FormData` fields in order. */
  datatype WriteRequest = WriteRequest(verb: string, path: string, fields: seq<(string, string)>)

  /** The list path `fetchCards(page, name)` requests: the name endpoint with
      the encoded, untrimmed name when the name is not blank. The source tests
      `name?.trim()`; `FetchPathChoice` shows the two tests agree. */
  function FetchPath(encode: string -> string, page: int, name: string): string {
    if !AllWhitespace(name) then "/cards/name/" + encode(name) + CardApi.Query(page, PageSize)
    else "/cards" + CardApi.Query(page, PageSize)
  }

  /** A name that trims to "" asks for the plain listing; any other name asks
      the name endpoint with the name as typed; both ask for the given
      zero-based page of four cards. */
  lemma FetchPathChoice(encode: string -> string, page: int, name: string)
    ensures Trim(name) == "" ==> FetchPath(encode, page, name) == "/cards" + CardApi.Query(page, PageSize)
    ensures Trim(name) != "" ==>
      FetchPath(encode, page, name) == "/cards/name/" + encode(name) + CardApi.Query(page, PageSize)
    ensures Trim(name) == "" <==> FetchPath(encode, page, name)[6] == '?'
  {
    TrimEmptyIffBlank(name);
    FetchPathByBlank(encode, page, name);
  }

  lemma FetchPathByBlank(encode: string -> string, page: int, name: string)
    ensures AllWhitespace(name) ==> FetchPath(encode, page, name) == "/cards" + CardApi.Query(page, PageSize)
    ensures !AllWhitespace(name) ==>
      FetchPath(encode, page, name) == "/cards/name/" + encode(name) + CardApi.Query(page, PageSize)
    ensures AllWhitespace(name) <==> FetchPath(encode, page, name)[6] == '?'
  {
    var q := CardApi.Query(page, PageSize);
    if AllWhitespace(name) {
      assert ("/cards" + q)[6] == q[0] == '?';
    } else {
      assert ("/cards/name/" + encode(name) + q)[6] == '/';
    }
  }

  /** `totalPages || 1`: a missing or zero page count counts as one page. */
  function TotalPagesOrOne(totalPages: Option<int>): (r: int)
    ensures r == 1 || (totalPages.Some? && r == totalPages.value)
    ensures totalPages.Some? && totalPages.value != 0 ==> r == totalPages.value
    ensures totalPages.Some? && totalPages.value >= 0 ==> r >= 1
  {
    if totalPages.Some? && totalPages.value != 0 then totalPages.value else 1
  }

  /** `parseInt(value) || 0` for the price input. */
  function ParsePrice(value: string): (price: int)
    ensures ParseInt(value).Some? ==> price == ParseInt(value).value
    ensures ParseInt(value).None? ==> price == 0
  {
    match ParseInt(value)
    case Some(n) => n
    case None => 0
  }

  /** Typing a price and reading it back gives that price. */
  lemma ParsePriceRoundTrip(price: int)
    ensures ParsePrice(IntToString(price)) == price
  {
    ParseIntOfIntToString(price);
  }

  /** Input with no digit after the optional sign gives price 0. */
  lemma ParsePriceNonNumeric(value: string)
    requires DigitPrefix(SignStripped(TrimStart(value))) == []
    ensures ParsePrice(value) == 0
  {
  }

  /** The request `handleSaveCard` sends: PUT to the card's path when
      editing, POST to `/cards` otherwise; name, description and price always,
      the image only when a file was chosen. */
  function SaveRequest(editing: Option<AdminCard>, form: Form): (r: WriteRequest)
    ensures r.verb == (if editing.Some? then "PUT" else "POST")
    ensures editing.Some? ==> r.path == "/cards/" + IntToString(editing.value.cardId)
    ensures editing.None? ==> r.path == "/cards"
    ensures |r.fields| == 3 + (if form.file.Some? then 1 else 0)
    ensures r.fields[..3] == [("name", form.name), ("description", form.description), ("price", IntToString(form.price))]
    ensures form.file.Some? ==> r.fields[3] == ("imageUrl", form.file.value)
  {
    var verb := if editing.Some? then "PUT" else "POST";
    var path := if editing.Some? then "/cards/" + IntToString(editing.value.cardId) else "/cards";
    var fields := [("name", form.name), ("description", form.description), ("price", IntToString(form.price))];
    WriteRequest(verb, path, if form.file.Some? then fields + [("imageUrl", form.file.value)] else fields)
  }

  /** A snapshot of the card manager's state. */
  datatype CardState = CardState(
    cards: seq<AdminCard>, currentPage: int, totalPages: int, searchQuery: string,
    showModal: bool, editingCard: Option<AdminCard>, form: Form, failed: bool,
    listRequests: seq<string>, writes: seq<WriteRequest>)

  /** The state after `fetchCards` requests `path` and gets `reply`: the
      error is cleared and the path logged; a failure sets the error, and a
      success installs the cards (none when `content` is missing) and the
      page count (one when none is given). */
  function AfterFetch(st: CardState, path: string, reply: ListReply): CardState {
    var sent := st.(failed := false, listRequests := st.listRequests + [path]);
    match reply
    case ListFailed => sent.(failed := true)
    case ListOk(content, total) =>
      sent.(cards := if content.Some? then content.value else [], totalPages := TotalPagesOrOne(total))
  }

  /** A load logs exactly its path; a success shows the reply's cards and at
      least one page whenever the backend reports a non-negative count; a
      failure keeps the cards and page count shown before; the page, search,
      modal, form and write log are never touched. */
  lemma FetchOutcome(st: CardState, path: string, reply: ListReply)
    ensures AfterFetch(st, path, reply).listRequests == st.listRequests + [path]
    ensures reply.ListOk? ==>
      && !AfterFetch(st, path, reply).failed
      && AfterFetch(st, path, reply).cards == (if reply.content.Some? then reply.content.value else [])
      && (reply.totalPages.None? || reply.totalPages.value >= 0 ==> AfterFetch(st, path, reply).totalPages >= 1)
    ensures reply.ListFailed? ==>
      && AfterFetch(st, path, reply).failed
      && AfterFetch(st, path, reply).cards == st.cards && AfterFetch(st, path, reply).totalPages == st.totalPages
    ensures AfterFetch(st, path, reply).(cards := st.cards, totalPages := st.totalPages, failed := st.failed,
                                         listRequests := st.listRequests) == st
  {
  }

  class CardManager {
    var cards: seq<AdminCard>
    var currentPage: int
    var totalPages: int
    var searchQuery: string
    var showModal: bool
    var editingCard: Option<AdminCard>
    var form: Form
    var failed: bool
    /** Every list path requested, in order. */
    var listRequests: seq<string>
    /** Every write request sent, in order. */
    var writes: seq<WriteRequest>

    function State(): CardState
      reads this
    {
      CardState(cards, currentPage, totalPages, searchQuery, showModal, editingCard, form, failed,
                listRequests, writes)
    }

    /** The initial state, before the first load. */
    constructor ()
      ensures State() == CardState([], 0, 0, "", false, None, EmptyForm, false, [], [])
    {
      cards := [];
      currentPage := 0;
      totalPages := 0;
      searchQuery := "";
      showModal := false;
      editingCard := None;
      form := EmptyForm;
      failed := false;
      listRequests := [];
      writes := [];
    }

    /** `fetchCards(page, name)` with the reply to its request, as
        `AfterFetch` states. */
    method FetchCards(encode: string -> string, page: int, name: string, reply: ListReply)
      modifies this
      ensures State() == AfterFetch(old(State()), FetchPath(encode, page, name), reply)
    {
      var path := FetchPath(encode, page, name);
      failed := false;
      listRequests := listRequests + [path];
      if reply.ListFailed? {
        failed := true;
        return;
      }
      cards := if reply.content.Some? then reply.content.value else [];
      totalPages := TotalPagesOrOne(reply.totalPages);
    }

    /** `handleCreateClick`: no card is being edited and the form is empty. */
    method CreateClick()
      modifies this
      ensures State() == old(State()).(editingCard := None, form := EmptyForm, showModal := true)
    {
      editingCard := None;
      form := EmptyForm;
      showModal := true;
    }

    /** `handleEditClick(card)`: the card is being edited and the form holds
        its name, description and price, with no file. */
    method EditClick(card: AdminCard)
      modifies this
      ensures State() == old(State()).(editingCard := Some(card),
                                       form := Form(card.name, card.description, card.price, None), showModal := true)
    {
      editingCard := Some(card);
      form := Form(card.name, card.description, card.price, None);
      showModal := true;
    }

    /** The price input: `parseInt(value) || 0`; nothing else changes. */
    method PriceInput(value: string)
      modifies this
      ensures State() == old(State()).(form := old(form).(price := ParsePrice(value)))
    {
      form := form.(price := ParsePrice(value));
    }

    /** `handleDeleteClick(cardId)`: a DELETE, then a reload of the current
        page with the current search only when it succeeded. */
    method DeleteClick(encode: string -> string, cardId: int, ok: bool, reload: ListReply)
      modifies this
      ensures var sent := old(State()).(writes := old(writes) + [WriteRequest("DELETE", "/cards/" + IntToString(cardId), [])]);
        State() == if ok then AfterFetch(sent, FetchPath(encode, old(currentPage), old(searchQuery)), reload) else sent
    {
      writes := writes + [WriteRequest("DELETE", "/cards/" + IntToString(cardId), [])];
      if ok {
        FetchCards(encode, currentPage, searchQuery, reload);
      }
    }

    /** `handleSaveCard`: sends `SaveRequest`; after an OK reply the modal
        closes and the list reloads the current page when editing and page 0
        when creating, with the current search. `currentPage` itself is not
        reset, and the form and edited card stay as they were. */
    method SaveCard(encode: string -> string, ok: bool, reload: ListReply)
      modifies this
      ensures var sent := old(State()).(writes := old(writes) + [SaveRequest(old(editingCard), old(form))]);
        State() == if ok then AfterFetch(sent.(showModal := false),
                                         FetchPath(encode, if old(editingCard).Some? then old(currentPage) else 0, old(searchQuery)),
                                         reload)
                   else sent
    {
      writes := writes + [SaveRequest(editingCard, form)];
      if ok {
        showModal := false;
        FetchCards(encode, if editingCard.Some? then currentPage else 0, searchQuery, reload);
      }
    }

    /** `handleSearchChange(value)`: the query becomes `value` and the page
        goes back to 0. The effect on those two fields runs only when one of
        them actually changed, and then loads page 0 for the new query. */
    method SearchChange(encode: string -> string, value: string, reload: ListReply)
      modifies this
      ensures var moved := old(State()).(searchQuery := value, currentPage := 0);
        State() == if value != old(searchQuery) || old(currentPage) != 0
                   then AfterFetch(moved, FetchPath(encode, 0, value), reload) else moved
    {
      var changed := value != searchQuery || currentPage != 0;
      searchQuery := value;
      currentPage := 0;
      if changed {
        FetchCards(encode, currentPage, searchQuery, reload);
      }
    }

    /** A page button: `setCurrentPage(page)`. The effect loads that page for
        the current search, unless it is already the current page, in which
        case nothing is requested. */
    method PageClick(encode: string -> string, page: int, reload: ListReply)
      modifies this
      ensures var moved := old(State()).(currentPage := page);
        State() == if page != old(currentPage) then AfterFetch(moved, FetchPath(encode, page, old(searchQuery)), reload)
                   else moved
    {
      var changed := page != currentPage;
      currentPage := page;
      if changed {
        FetchCards(encode, currentPage, searchQuery, reload);
      }
    }
  }

  /** Creating a card while on a later page reloads page 0 but leaves
      `currentPage` where it was, so the pager then marks a page other than
      the one whose cards were requested last. */
  method CreateFromLaterPage(encode: string -> string, reload: ListReply) returns (lastRequest: string, markedPage: int)
    ensures lastRequest == FetchPath(encode, 0, "") && markedPage == 2
    ensures lastRequest != FetchPath(encode, markedPage, "")
  {
    var m := new CardManager();
    m.PageClick(encode, 2, reload);
    m.CreateClick();
    m.SaveCard(encode, true, reload);
    lastRequest := m.listRequests[|m.listRequests| - 1];
    markedPage := m.currentPage;
    DistinctPagesDistinctPaths(encode, 0, markedPage, "");
  }

  /** Two different pages of the same search are requested under different
      paths. */
  lemma DistinctPagesDistinctPaths(encode: string -> string, p: int, q: int, name: string)
    requires p != q
    ensures FetchPath(encode, p, name) != FetchPath(encode, q, name)
  {
    var a, b := CardApi.Query(p, PageSize), CardApi.Query(q, PageSize);
    if FetchPath(encode, p, name) == FetchPath(encode, q, name) {
      var pre := if AllWhitespace(name) then "/cards" else "/cards/name/" + encode(name);
      assert FetchPath(encode, p, name) == pre + a && FetchPath(encode, q, name) == pre + b;
      assert a == (pre + a)[|pre|..] && b == (pre + b)[|pre|..];
      CardApi.QueryInjective(p, PageSize, q, PageSize);
    }
  }
}
