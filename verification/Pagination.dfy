/** The cursor loops of the Vultr client: `ListPlans`, `ListOS` and `ListInstances` differ only in what they list. */
module Pagination {
  import opened Prelude
  import Strings

  datatype ListError = Request(cause: string) | Unparseable(link: string)

  /** One answer of the server; `next` is empty when the link is absent or empty. */
  datatype Answer<T> = Page(items: seq<T>, next: string) | Failure(cause: string)

  /**
   * The cursor a next link stands for. `linkCursor` is the URL parser: the cursor parameter of an absolute URL, and
   * `None` for anything that is not one.
   */
  function CursorFromNext(next: string, linkCursor: string -> Option<string>): string {
    var trimmed := Strings.TrimSpace(next);
    if trimmed == "" then ""
    else
      match linkCursor(trimmed)
      case Some(cursor) => if cursor != "" then cursor else trimmed
      case None => trimmed
  }

  /** The server, as a function of the cursor sent, with the URL parser its links are read with. */
  datatype Server<!T> = Server(answer: string -> Answer<T>, linkCursor: string -> Option<string>)

  predicate Continues<T>(s: Server<T>, cursor: string) {
    var a := s.answer(cursor);
    a.Page? && a.next != "" && CursorFromNext(a.next, s.linkCursor) != ""
  }

  function Following<T>(s: Server<T>, cursor: string): string
    requires Continues(s, cursor)
  {
    CursorFromNext(s.answer(cursor).next, s.linkCursor)
  }

  /** The cursors met from the first page on: each answer but the last continues at the next, and the last one ends. */
  predicate Chain<T>(s: Server<T>, cursors: seq<string>) {
    && cursors != [] && cursors[0] == ""
    && (forall k :: 0 <= k < |cursors| - 1 ==> Continues(s, cursors[k]) && cursors[k + 1] == Following(s, cursors[k]))
    && !Continues(s, cursors[|cursors| - 1])
  }

  predicate AllPages<T>(s: Server<T>, cursors: seq<string>) {
    forall k :: 0 <= k < |cursors| ==> s.answer(cursors[k]).Page?
  }

  function Items<T>(s: Server<T>, cursors: seq<string>): seq<T>
    requires AllPages(s, cursors)
  {
    if cursors == [] then []
    else
      assert AllPages(s, cursors[..|cursors| - 1]);
      Items(s, cursors[..|cursors| - 1]) + s.answer(cursors[|cursors| - 1]).items
  }

  /**
   * Lists everything. The chain is the finite one the server's links form; it bounds the loop, which a server whose
   * links run in a circle would never let end.
   */
  method ListAll<T>(server: Server<T>, ghost chain: seq<string>) returns (r: Result<seq<T>, ListError>, sent: seq<string>)
    requires Chain(server, chain)
    ensures sent == chain
    ensures r.Ok? <==> AllPages(server, chain) && server.answer(chain[|chain| - 1]).next == ""
    ensures r.Ok? ==> r.value == Items(server, chain)
    ensures r.Err? ==>
              r.error == match server.answer(chain[|chain| - 1])
                         case Failure(cause) => Request(cause)
                         case Page(_, next) => Unparseable(next)
  {
    var result: seq<T> := [];
    var cursor := "";
    sent := [];
    while true
      invariant |sent| < |chain| && sent == chain[..|sent|] && cursor == chain[|sent|]
      invariant AllPages(server, sent) && result == Items(server, sent)
      decreases |chain| - |sent|
    {
      ghost var before := sent;
      sent := sent + [cursor];
      assert sent == chain[..|sent|] && sent[..|sent| - 1] == before;
      assert |sent| < |chain| ==> Continues(server, chain[|before|]) && chain[|sent|] == Following(server, cursor);
      var out := server.answer(cursor);
      if out.Failure? {
        return Err(Request(out.cause)), sent;
      }
      result := result + out.items;
      if out.next == "" {
        return Ok(result), sent;
      }
      cursor := CursorFromNext(out.next, server.linkCursor);
      if cursor == "" {
        return Err(Unparseable(out.next)), sent;
      }
    }
  }

  /** A server that hands out `pages` in order, by tokens or by links, each token standing for one page. */
  ghost predicate Serves<T>(s: Server<T>, pages: seq<seq<T>>, cursors: seq<string>) {
    && |pages| == |cursors| > 0 && cursors[0] == ""
    && (forall k :: 0 <= k < |pages| ==> s.answer(cursors[k]).Page? && s.answer(cursors[k]).items == pages[k])
    && (forall k :: 0 <= k < |pages| - 1 ==> LinksTo(s, s.answer(cursors[k]).next, cursors[k + 1]))
    && s.answer(cursors[|pages| - 1]).next == ""
  }

  /** The link is the opaque token itself, or an absolute URL carrying it; either may be padded with white space. */
  predicate LinksTo<T>(s: Server<T>, link: string, cursor: string) {
    var trimmed := Strings.TrimSpace(link);
    && link != "" && cursor != "" && trimmed != ""
    && match s.linkCursor(trimmed)
       case None => trimmed == cursor
       case Some(c) => if c == "" then trimmed == cursor else c == cursor
  }

  function Concatenated<T>(pages: seq<seq<T>>): seq<T> {
    if pages == [] then [] else Concatenated(pages[..|pages| - 1]) + pages[|pages| - 1]
  }

  lemma {:induction false} ItemsAreConcatenated<T>(s: Server<T>, pages: seq<seq<T>>, cursors: seq<string>)
    requires |pages| == |cursors|
    requires forall k :: 0 <= k < |pages| ==> s.answer(cursors[k]).Page? && s.answer(cursors[k]).items == pages[k]
    ensures AllPages(s, cursors) && Items(s, cursors) == Concatenated(pages)
  {
    if pages != [] {
      ItemsAreConcatenated(s, pages[..|pages| - 1], cursors[..|pages| - 1]);
    }
  }

  /** Against such a server the loop ends and returns every page's items exactly once, in order. */
  lemma ListingIsExact<T>(s: Server<T>, pages: seq<seq<T>>, cursors: seq<string>)
    requires Serves(s, pages, cursors)
    ensures Chain(s, cursors) && AllPages(s, cursors) && s.answer(cursors[|cursors| - 1]).next == ""
    ensures Items(s, cursors) == Concatenated(pages)
  {
    ItemsAreConcatenated(s, pages, cursors);
    forall k | 0 <= k < |cursors| - 1 ensures Continues(s, cursors[k]) && cursors[k + 1] == Following(s, cursors[k]) {
      assert LinksTo(s, s.answer(cursors[k]).next, cursors[k + 1]);
    }
  }

  /** The pages asked for are determined by the server, and no page is asked for twice. */
  lemma {:induction false} ChainUnique<T>(s: Server<T>, a: seq<string>, b: seq<string>)
    requires Chain(s, a) && Chain(s, b)
    ensures a == b
  {
    var n := if |a| <= |b| then |a| else |b|;
    CommonPrefix(s, a, b, n);
    assert a[n - 1] == b[n - 1];
  }

  lemma {:induction false} CommonPrefix<T>(s: Server<T>, a: seq<string>, b: seq<string>, n: nat)
    requires Chain(s, a) && Chain(s, b) && 0 < n <= |a| && n <= |b|
    ensures forall k :: 0 <= k < n ==> a[k] == b[k]
  {
    if n > 1 {
      CommonPrefix(s, a, b, n - 1);
      assert Continues(s, a[n - 2]) && Continues(s, b[n - 2]);
    }
  }

  lemma {:induction false} Shifted<T>(s: Server<T>, chain: seq<string>, i: nat, j: nat, n: nat)
    requires Chain(s, chain) && i < j && j + n < |chain| && chain[i] == chain[j]
    ensures chain[i + n] == chain[j + n]
  {
    if n > 0 {
      Shifted(s, chain, i, j, n - 1);
      assert Continues(s, chain[i + n - 1]) && Continues(s, chain[j + n - 1]);
    }
  }

  lemma NoPageTwice<T>(s: Server<T>, chain: seq<string>, i: nat, j: nat)
    requires Chain(s, chain) && i < j < |chain|
    ensures chain[i] != chain[j]
  {
    if chain[i] == chain[j] {
      Shifted(s, chain, i, j, |chain| - 1 - j);
    }
  }
}
