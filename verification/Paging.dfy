/** The bounded walk over MAS pages behind ListPersonalSessions and ListUsers. */
module Paging {
  import opened Text
  import opened Stores

  datatype Url = Url(scheme: string, host: string, user: bool, rest: string)
  datatype Page<T> = Page(items: seq<T>, next: string)

  const MAX_PAGES: nat := 100

  /** The server as the walk sees it: the answer to the i-th request, if it succeeds, and
      what a next link resolves to against the current URL, if it parses. */
  datatype Remote<!T> = Remote(fetch: (nat, Url) -> Option<Page<T>>, resolve: (Url, string) -> Option<Url>)

  predicate SameOrigin(from: Url, to: Url) {
    to.scheme == from.scheme && to.host == from.host && !to.user
  }

  function Concat<T>(pages: seq<Page<T>>): seq<T> {
    if pages == [] then [] else Concat(pages[..|pages| - 1]) + pages[|pages| - 1].items
  }

  /** `pages`, fetched at `urls`, follow each other by same-origin links from the start. */
  ghost predicate Linked<T>(m: Remote<T>, start: Url, urls: seq<Url>, pages: seq<Page<T>>) {
    && |urls| == |pages|
    && (pages != [] ==> urls[0] == start)
    && (forall i | 0 <= i < |pages| :: m.fetch(i, urls[i]) == Some(pages[i]))
    && (forall i | 0 <= i < |pages| - 1 :: pages[i].next != "" && Hop(m, urls[i], pages[i].next) == Some(urls[i + 1]))
  }

  /** The page a next link leads to, unless it leaves the origin. */
  function Hop<T>(m: Remote<T>, from: Url, link: string): Option<Url> {
    match m.resolve(from, link)
    case Some(to) => if SameOrigin(from, to) then Some(to) else None
    case None => None
  }

  /** The chain from the start ends by itself after these pages. */
  ghost predicate Complete<T>(m: Remote<T>, start: Url, urls: seq<Url>, pages: seq<Page<T>>) {
    pages != [] && Linked(m, start, urls, pages) && pages[|pages| - 1].next == ""
  }

  /** Two chains from the same start agree as far as both go. */
  lemma {:induction false} ChainsAgree<T>(m: Remote<T>, start: Url, us: seq<Url>, ps: seq<Page<T>>, vs: seq<Url>,
        qs: seq<Page<T>>, i: nat)
    requires Linked(m, start, us, ps) && Linked(m, start, vs, qs) && i < |ps| && i < |qs|
    ensures us[i] == vs[i] && ps[i] == qs[i]
  {
    if i > 0 {
      ChainsAgree(m, start, us, ps, vs, qs, i - 1);
    }
  }

  /** A chain that ends by itself is at least as long as any other. */
  lemma CompleteIsLongest<T>(m: Remote<T>, start: Url, us: seq<Url>, ps: seq<Page<T>>, vs: seq<Url>, qs: seq<Page<T>>)
    requires Complete(m, start, us, ps) && Linked(m, start, vs, qs)
    ensures |qs| <= |ps| && qs == ps[..|qs|]
  {
    if |qs| > |ps| {
      ChainsAgree(m, start, us, ps, vs, qs, |ps| - 1);
    }
    forall i | 0 <= i < |qs| ensures qs[i] == ps[i] {
      ChainsAgree(m, start, us, ps, vs, qs, i);
    }
  }

  /** `next` is where the walk stands after fetching `qs`. */
  ghost predicate Reached<T>(m: Remote<T>, start: Url, vs: seq<Url>, qs: seq<Page<T>>, next: Url) {
    && Linked(m, start, vs, qs)
    && if qs == [] then next == start
       else qs[|qs| - 1].next != "" && Hop(m, vs[|qs| - 1], qs[|qs| - 1].next) == Some(next)
  }

  /** A complete chain goes on where the walk stands. */
  lemma CompletionGoesOn<T>(m: Remote<T>, start: Url, us: seq<Url>, ps: seq<Page<T>>, vs: seq<Url>, qs: seq<Page<T>>)
    requires Complete(m, start, us, ps) && Linked(m, start, vs, qs)
    requires qs == [] || qs[|qs| - 1].next != ""
    ensures |qs| < |ps| && (qs != [] ==> Hop(m, vs[|qs| - 1], qs[|qs| - 1].next) == Some(us[|qs|]))
  {
    CompleteIsLongest(m, start, us, ps, vs, qs);
    if qs != [] { ChainsAgree(m, start, us, ps, vs, qs, |qs| - 1); }
  }

  lemma FailedFetchEnds<T>(m: Remote<T>, start: Url, vs: seq<Url>, qs: seq<Page<T>>, next: Url)
    requires Reached(m, start, vs, qs, next) && m.fetch(|qs|, next).None?
    ensures forall us, ps :: !Complete(m, start, us, ps)
  {
    forall us, ps ensures !Complete(m, start, us, ps) {
      if Complete(m, start, us, ps) {
        CompletionGoesOn(m, start, us, ps, vs, qs);
      }
    }
  }

  lemma BadLinkEnds<T>(m: Remote<T>, start: Url, vs: seq<Url>, qs: seq<Page<T>>)
    requires Linked(m, start, vs, qs) && qs != [] && qs[|qs| - 1].next != ""
    requires Hop(m, vs[|qs| - 1], qs[|qs| - 1].next).None?
    ensures forall us, ps :: !Complete(m, start, us, ps)
  {
    forall us, ps ensures !Complete(m, start, us, ps) {
      if Complete(m, start, us, ps) {
        CompletionGoesOn(m, start, us, ps, vs, qs);
      }
    }
  }

  /** Follow next links for at most MAX_PAGES pages. The result is the concatenation of all
      pages of a chain that ends by itself, or an error; never a part of it. */
  method ListPages<T>(m: Remote<T>, start: Url) returns (result: Option<seq<T>>)
    ensures result.Some? ==>
      exists urls, pages :: Complete(m, start, urls, pages) && |pages| <= MAX_PAGES && result.value == Concat(pages)
    ensures result.None? ==>
      forall urls, pages :: Complete(m, start, urls, pages) ==> |pages| > MAX_PAGES
  {
    hide Complete; hide Linked; hide Reached; hide Hop;
    var endpoint := start;
    var items: seq<T> := [];
    ghost var urls: seq<Url>, pages: seq<Page<T>> := [], [];
    assert Reached(m, start, urls, pages, endpoint) by { Begin(m, start); }
    for page := 0 to MAX_PAGES
      invariant |pages| == page && Reached(m, start, urls, pages, endpoint) && items == Concat(pages)
    {
      var response := m.fetch(page, endpoint);
      if response.None? {
        FailedFetchEnds(m, start, urls, pages, endpoint);
        return None;
      }
      items := items + response.value.items;
      Extend(m, start, urls, pages, endpoint);
      ghost var fetched := pages;
      urls, pages := urls + [endpoint], pages + [response.value];
      assert pages[..|pages| - 1] == fetched && items == Concat(pages);
      if response.value.next == "" {
        Finish(m, start, urls, pages);
        return Some(items);
      }
      var next := m.resolve(endpoint, response.value.next);
      if next.None? || !SameOrigin(endpoint, next.value) {
        Stuck(m, endpoint, response.value.next);
        BadLinkEnds(m, start, urls, pages);
        return None;
      }
      Onward(m, start, urls, pages, next.value);
      endpoint := next.value;
    }
    TooLong(m, start, urls, pages, endpoint);
    result := None;
  }

  lemma Begin<T>(m: Remote<T>, start: Url)
    ensures Reached(m, start, [], [], start)
  {
  }

  lemma Extend<T>(m: Remote<T>, start: Url, vs: seq<Url>, qs: seq<Page<T>>, next: Url)
    requires Reached(m, start, vs, qs, next) && m.fetch(|qs|, next).Some?
    ensures Linked(m, start, vs + [next], qs + [m.fetch(|qs|, next).value])
  {
  }

  lemma Finish<T>(m: Remote<T>, start: Url, vs: seq<Url>, qs: seq<Page<T>>)
    requires Linked(m, start, vs, qs) && qs != [] && qs[|qs| - 1].next == ""
    ensures Complete(m, start, vs, qs)
  {
  }

  lemma Stuck<T>(m: Remote<T>, from: Url, link: string)
    requires m.resolve(from, link).None? || !SameOrigin(from, m.resolve(from, link).value)
    ensures Hop(m, from, link).None?
  {
  }

  lemma Onward<T>(m: Remote<T>, start: Url, vs: seq<Url>, qs: seq<Page<T>>, next: Url)
    requires Linked(m, start, vs, qs) && qs != [] && qs[|qs| - 1].next != ""
    requires m.resolve(vs[|qs| - 1], qs[|qs| - 1].next) == Some(next) && SameOrigin(vs[|qs| - 1], next)
    ensures Reached(m, start, vs, qs, next)
  {
  }

  lemma TooLong<T>(m: Remote<T>, start: Url, vs: seq<Url>, qs: seq<Page<T>>, next: Url)
    requires Reached(m, start, vs, qs, next) && |qs| >= 1
    ensures forall us, ps :: Complete(m, start, us, ps) ==> |ps| > |qs|
  {
    forall us, ps | Complete(m, start, us, ps) ensures |ps| > |qs| {
      CompletionGoesOn(m, start, us, ps, vs, qs);
    }
  }

  /** When MAS serves the active sessions of a user in a chain of pages, the walk is the
      listing the lifecycle operations count on: complete, or an error. */
  lemma WalkIsTheListing(m: Remote<Listed>, start: Url, w: World, user: string, urls: seq<Url>,
        pages: seq<Page<Listed>>, result: Option<seq<Listed>>)
    requires Complete(m, start, urls, pages) && Listing(w, user, Concat(pages))
    requires result.Some? ==>
      exists us, ps :: Complete(m, start, us, ps) && |ps| <= MAX_PAGES && result.value == Concat(ps)
    requires result.None? ==> forall us, ps :: Complete(m, start, us, ps) ==> |ps| > MAX_PAGES
    ensures result.Some? ==> Legal(w, ListSessions(user), Sessions(result.value))
    ensures result.Some? <==> |pages| <= MAX_PAGES
  {
    if result.Some? {
      var us, ps :| Complete(m, start, us, ps) && |ps| <= MAX_PAGES && result.value == Concat(ps);
      CompleteIsLongest(m, start, us, ps, urls, pages);
      CompleteIsLongest(m, start, urls, pages, us, ps);
      assert pages == ps;
    }
  }
}
