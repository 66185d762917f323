/**
 * The client's URL scheme: how an operation is written as a path, and
 * `Route`, this model's reference decoder that reads a request strictly back
 * into the operation it names. The endpoint builders are proved against it.
 * It is not the server's routing, which accepts more spellings of a path.
 */
module Routes {
  import opened Wrappers
  import opened Decimal
  import opened Types
  import opened Http

  datatype Collection = Products | Orders | Transactions

  function CollectionName(c: Collection): string {
    match c
    case Products => "products"
    case Orders => "orders"
    case Transactions => "transactions"
  }

  function CollectionNamed(name: string): (r: Option<Collection>)
    ensures r.Some? ==> CollectionName(r.value) == name
    ensures r.None? ==> forall c :: CollectionName(c) != name
  {
    if name == "products" then Some(Products)
    else if name == "orders" then Some(Orders)
    else if name == "transactions" then Some(Transactions)
    else None
  }

  /** The operations of the four API objects, with their arguments. */
  datatype Operation =
    | Login(credentials: LoginCredentials)
    | GetCurrentUser
    | ListProducts(page: int, size: int)
    | GetProduct(id: int)
    | CreateProduct(product: CreateProductDTO)
    | UpdateProduct(id: int, patch: ProductPatch)
    | DeleteProduct(id: int)
    | ListOrders(page: int, size: int)
    | GetOrder(id: int)
    | CreateOrder(order: CreateOrderDTO)
    | ListTransactions(page: int, size: int)
    | CreateTransaction(transaction: NewTransaction)

  const LoginPath := "/auth/login"
  const CurrentUserPath := "/auth/me"

  function CollectionPath(c: Collection): string {
    "/" + CollectionName(c)
  }

  /**
   * The path of one page of a collection: the collection path and "?", then
   * a query string carrying page and size.
   */
  function ListPath(c: Collection, page: int, size: int): (url: string)
    ensures CollectionPath(c) + "?" <= url
  {
    CollectionPath(c) + "?" + QueryString(page, size)
  }

  /** The path of one member of a collection: "/", the collection's name, "/", the id; no query string. */
  function ItemPath(c: Collection, id: int): (url: string)
    ensures |url| >= 1 && url[0] == '/' && SplitFirst(url[1..], '/') == Some((CollectionName(c), IntToString(id)))
    ensures '?' !in url
  {
    var url := CollectionPath(c) + "/" + IntToString(id);
    assert url[1..] == CollectionName(c) + ['/'] + IntToString(id);
    assert '/' !in CollectionName(c) && '?' !in CollectionName(c);
    SplitFirstAt(CollectionName(c), '/', IntToString(id));
    NoSeparatorInNumeral(id, '?');
    url
  }

  /** Splits `s` at the first occurrence of `c`, or gives None when `c` does not occur. */
  function SplitFirst(s: string, c: char): (r: Option<(string, string)>)
    ensures r.Some? ==> s == r.value.0 + [c] + r.value.1 && c !in r.value.0
    ensures r.None? ==> c !in s
  {
    if s == [] then None
    else if s[0] == c then Some(([], s[1..]))
    else
      match SplitFirst(s[1..], c)
      case None => None
      case Some((before, after)) => Some(([s[0]] + before, after))
  }

  /** The split point is unique: the first occurrence is the one before which `c` does not occur. */
  lemma {:induction false} SplitFirstAt(a: string, c: char, b: string)
    requires c !in a
    ensures SplitFirst(a + [c] + b, c) == Some((a, b))
  {
    var s := a + [c] + b;
    if a == [] {
      assert s == [c] + b;
    } else {
      assert s[0] == a[0] && a[0] != c;
      assert s[1..] == a[1..] + [c] + b;
      SplitFirstAt(a[1..], c, b);
      assert [a[0]] + a[1..] == a;
    }
  }

  /** The collection a path like "/products" names. */
  function CollectionOfPath(base: string): Option<Collection> {
    if |base| >= 1 && base[0] == '/' then CollectionNamed(base[1..]) else None
  }

  /** Reads "page=<p>&size=<s>". */
  function ParseQuery(query: string): Option<(int, int)> {
    if |query| < 5 || query[..5] != "page=" then None
    else
      match SplitFirst(query[5..], '&')
      case None => None
      case Some((pageText, rest)) =>
        if |rest| < 5 || rest[..5] != "size=" then None
        else
          match (ParseInt(pageText), ParseInt(rest[5..]))
          case (Some(page), Some(size)) => Some((page, size))
          case _ => None
  }

  /** Reads "/<collection>?page=<p>&size=<s>". */
  function ParseListPath(url: string): Option<(Collection, int, int)> {
    match SplitFirst(url, '?')
    case None => None
    case Some((base, query)) =>
      match (CollectionOfPath(base), ParseQuery(query))
      case (Some(c), Some((page, size))) => Some((c, page, size))
      case _ => None
  }

  /** Reads "/<collection>/<id>". */
  function ParseItemPath(url: string): Option<(Collection, int)> {
    if |url| == 0 || url[0] != '/' then None
    else
      match SplitFirst(url[1..], '/')
      case None => None
      case Some((name, idText)) =>
        match (CollectionNamed(name), ParseInt(idText))
        case (Some(c), Some(id)) => Some((c, id))
        case _ => None
  }

  /**
   * The reference decoder: the operation whose request the client would write
   * exactly like this one; None for any other request.
   */
  function Route(req: Request): Option<Operation> {
    match req.verb
    case POST =>
      (match req.data
       case CredentialsBody(credentials) =>
         if req.url == LoginPath then Some(Login(credentials)) else None
       case ProductBody(product) =>
         if req.url == CollectionPath(Products) then Some(CreateProduct(product)) else None
       case OrderBody(order) =>
         if req.url == CollectionPath(Orders) then Some(CreateOrder(order)) else None
       case TransactionBody(transaction) =>
         if req.url == CollectionPath(Transactions) then Some(CreateTransaction(transaction)) else None
       case _ => None)
    case GET =>
      if req.data != NoBody then None
      else if req.url == CurrentUserPath then Some(GetCurrentUser)
      else
        (match ParseListPath(req.url)
         case Some((Products, page, size)) => Some(ListProducts(page, size))
         case Some((Orders, page, size)) => Some(ListOrders(page, size))
         case Some((Transactions, page, size)) => Some(ListTransactions(page, size))
         case None =>
           match ParseItemPath(req.url)
           case Some((Products, id)) => Some(GetProduct(id))
           case Some((Orders, id)) => Some(GetOrder(id))
           case _ => None)
    case PUT =>
      (match (req.data, ParseItemPath(req.url))
       case (PatchBody(patch), Some((Products, id))) => Some(UpdateProduct(id, patch))
       case _ => None)
    case DELETE =>
      (match (req.data, ParseItemPath(req.url))
       case (NoBody, Some((Products, id))) => Some(DeleteProduct(id))
       case _ => None)
  }

  lemma NoSeparatorInNumeral(i: int, c: char)
    requires !IsNumeral(c)
    ensures c !in IntToString(i)
  {
  }

  function QueryString(page: int, size: int): string {
    "page=" + IntToString(page) + "&size=" + IntToString(size)
  }

  /** Page and size travel in the query string: a list path has a single path segment. */
  lemma {:induction false} ListPathOneSegment(c: Collection, page: int, size: int)
    ensures |ListPath(c, page, size)| >= 1 && '/' !in ListPath(c, page, size)[1..]
  {
    var name, query := CollectionName(c), QueryString(page, size);
    assert ListPath(c, page, size)[1..] == name + ['?'] + query;
    assert '/' !in name;
    QueryHasNoSlash(page, size);
  }

  lemma QueryHasNoSlash(page: int, size: int)
    ensures '/' !in QueryString(page, size)
  {
    var p, s := IntToString(page), IntToString(size);
    NoSeparatorInNumeral(page, '/');
    NoSeparatorInNumeral(size, '/');
    assert QueryString(page, size) == "page=" + p + "&size=" + s;
  }

  lemma ParseQueryOf(page: int, size: int)
    ensures ParseQuery(QueryString(page, size)) == Some((page, size))
  {
    var p, s := IntToString(page), IntToString(size);
    var query := QueryString(page, size);
    assert query[..5] == "page=";
    assert query[5..] == p + ['&'] + ("size=" + s);
    NoSeparatorInNumeral(page, '&');
    SplitFirstAt(p, '&', "size=" + s);
    assert ("size=" + s)[..5] == "size=";
    assert ("size=" + s)[5..] == s;
    ParseIntToString(page);
    ParseIntToString(size);
  }

  lemma CollectionOfPathOf(c: Collection)
    ensures CollectionOfPath(CollectionPath(c)) == Some(c)
    ensures '?' !in CollectionPath(c)
  {
  }

  /** A list path reads back as the collection, page and size it was written from. */
  lemma ParseListPathOf(c: Collection, page: int, size: int)
    ensures ParseListPath(ListPath(c, page, size)) == Some((c, page, size))
  {
    CollectionOfPathOf(c);
    SplitFirstAt(CollectionPath(c), '?', QueryString(page, size));
    ParseQueryOf(page, size);
  }

  /** An item path reads back as the collection and id it was written from. */
  lemma ParseItemPathOf(c: Collection, id: int)
    ensures ParseItemPath(ItemPath(c, id)) == Some((c, id))
  {
    ParseIntToString(id);
  }

  /** An item path has no query string, so it never reads as a list path. */
  lemma ItemPathIsNoListPath(c: Collection, id: int)
    ensures ParseListPath(ItemPath(c, id)) == None
  {
  }

  lemma QueryStringOfParse(query: string, page: int, size: int)
    requires ParseQuery(query) == Some((page, size))
    ensures QueryString(page, size) == query
  {
    var (pageText, rest) := SplitFirst(query[5..], '&').value;
    IntToStringOfParse(pageText, page);
    IntToStringOfParse(rest[5..], size);
    assert query == query[..5] + query[5..];
    assert rest == rest[..5] + rest[5..];
  }

  /** Whatever reads as a list path was written by ListPath. */
  lemma ListPathOfParse(url: string, c: Collection, page: int, size: int)
    requires ParseListPath(url) == Some((c, page, size))
    ensures ListPath(c, page, size) == url
  {
    var (base, query) := SplitFirst(url, '?').value;
    assert base == "/" + base[1..] == CollectionPath(c);
    QueryStringOfParse(query, page, size);
    assert ListPath(c, page, size) == CollectionPath(c) + ['?'] + QueryString(page, size);
  }

  /** Whatever reads as an item path was written by ItemPath. */
  lemma ItemPathOfParse(url: string, c: Collection, id: int)
    requires ParseItemPath(url) == Some((c, id))
    ensures ItemPath(c, id) == url
  {
    var (name, idText) := SplitFirst(url[1..], '/').value;
    IntToStringOfParse(idText, id);
    var written := ItemPath(c, id);
    assert written[1..] == url[1..];
    assert written == [written[0]] + written[1..];
    assert url == [url[0]] + url[1..];
  }
}
