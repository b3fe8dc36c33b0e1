/**
 * The conversation service: a paged listing of conversations, optionally
 * narrowed to those whose title contains a search string (SQLite's
 * `title LIKE '%search%'`, which ignores the case of ASCII letters).
 */
module ConversationService {
  import opened Seqs
  import opened Models
  import opened Database

  /** One page of conversations together with the number of matches. */
  datatype PageResult = PageResult(total: int, items: seq<Conversation>)

  /** The smallest page size the listing uses. */
  const MIN_PAGE_SIZE := 50

  /** SQLite's case folding for LIKE: ASCII upper-case letters only. */
  function LowerAscii(c: char): (r: char)
    ensures 'A' <= c <= 'Z' ==> r as int == c as int + 32
    ensures !('A' <= c <= 'Z') ==> r == c
  {
    if 'A' <= c <= 'Z' then (c as int + 32) as char else c
  }

  function Folded(s: string): (r: string)
    ensures |r| == |s| && forall i :: 0 <= i < |s| ==> r[i] == LowerAscii(s[i])
  {
    seq(|s|, i requires 0 <= i < |s| => LowerAscii(s[i]))
  }

  /** `s` occurs in `t` starting at position `i`. */
  ghost predicate OccursAt(t: string, s: string, i: int) {
    0 <= i && i + |s| <= |t| && t[i..i + |s|] == s
  }

  /** Whether `s` occurs somewhere in `t`, scanning the start positions from the left. */
  function Contains(t: string, s: string): (r: bool)
    ensures r <==> exists i :: OccursAt(t, s, i)
    decreases |t|
  {
    if |s| > |t| then
      assert forall i :: !OccursAt(t, s, i);
      false
    else if t[..|s|] == s then
      assert OccursAt(t, s, 0);
      true
    else
      var r := Contains(t[1..], s);
      assert forall i :: 1 <= i && OccursAt(t, s, i) ==> OccursAt(t[1..], s, i - 1) by {
        forall i | 1 <= i && OccursAt(t, s, i) ensures OccursAt(t[1..], s, i - 1) {
          assert t[1..][i - 1..i - 1 + |s|] == t[i..i + |s|];
        }
      }
      assert forall i :: OccursAt(t[1..], s, i) ==> OccursAt(t, s, i + 1) by {
        forall i | OccursAt(t[1..], s, i) ensures OccursAt(t, s, i + 1) {
          assert t[1..][i..i + |s|] == t[i + 1..i + 1 + |s|];
        }
      }
      r
  }

  /** `title LIKE '%search%'` for a search string without wildcards. */
  predicate TitleMatches(c: Conversation, search: string) {
    Contains(Folded(c.title), Folded(search))
  }

  /** The WHERE clause of a search, as a predicate on conversations. */
  function MatchesSearch(search: string): Conversation -> bool {
    (c: Conversation) => TitleMatches(c, search)
  }

  /**
   * The conversations the query counts and pages, in table order: no WHERE
   * clause for an empty search, `title LIKE '%search%'` otherwise. Either way
   * they are exactly the conversations whose title matches, each once.
   */
  function Matching(convs: seq<Conversation>, search: string): (r: seq<Conversation>)
    ensures r == Filter(convs, MatchesSearch(search))
    ensures forall k :: 0 <= k < |r| ==> r[k] in convs && TitleMatches(r[k], search)
    ensures forall i :: 0 <= i < |convs| && TitleMatches(convs[i], search) ==> convs[i] in r
  {
    if search == "" then
      assert forall i :: 0 <= i < |convs| ==> MatchesSearch(search)(convs[i]) by {
        forall i | 0 <= i < |convs| ensures MatchesSearch(search)(convs[i]) {
          EmptySearchMatchesAll(convs[i]);
        }
      }
      FilterAll(convs, MatchesSearch(search));
      convs
    else Filter(convs, MatchesSearch(search))
  }

  /** Every title contains the empty string, so an empty search keeps every conversation. */
  lemma EmptySearchMatchesAll(c: Conversation)
    ensures TitleMatches(c, "")
  {
    assert OccursAt(Folded(c.title), Folded(""), 0);
  }

  /** A search that differs only in the case of ASCII letters selects the same conversations. */
  lemma {:induction false} SearchIgnoresAsciiCase(convs: seq<Conversation>, search: string, search': string)
    requires search != "" && search' != ""
    requires Folded(search) == Folded(search')
    ensures Matching(convs, search) == Matching(convs, search')
  {
    if convs != [] {
      var init := convs[..|convs| - 1];
      SearchIgnoresAsciiCase(init, search, search');
    }
  }

  /** Any page size below the minimum is raised to it. */
  function PageSize(size: int64): (r: int64)
    ensures r >= MIN_PAGE_SIZE
    ensures size >= MIN_PAGE_SIZE ==> r == size
    ensures size < MIN_PAGE_SIZE ==> r == MIN_PAGE_SIZE
  {
    Max(size, MIN_PAGE_SIZE)
  }

  /**
   * `GetList(page, size, search)`: the number of matching conversations and
   * the requested page of them, with the page number raised to at least 1
   * and the size to at least 50.
   */
  function GetList(convs: seq<Conversation>, page: int64, size: int64, search: string): (r: PageResult)
    ensures r.total == |Matching(convs, search)| && r.total <= |convs|
    ensures |r.items| <= PageSize(size)
    ensures var start := PageStart(Max(page, 1), PageSize(size));
            start <= INT64_MAX ==>
              |r.items| == if start >= r.total then 0 else Min(PageSize(size), r.total - start)
    ensures forall k :: 0 <= k < |r.items| ==> r.items[k] in convs && TitleMatches(r.items[k], search)
  {
    var m := Matching(convs, search);
    var items := Page(m, Max(page, 1), PageSize(size));
    assert forall k :: 0 <= k < |items| ==> items[k] in m;
    PageResult(|m|, items)
  }

  /**
   * Item `k` of the page queried for any `page` and `size` is match number
   * `(p - 1) * n + k`, where `p` is the page raised to 1 and `n` the size
   * raised to 50; together with `RowPosition` every match is listed on
   * exactly the page its position says.
   */
  lemma GetListItemAt(convs: seq<Conversation>, page: int64, size: int64, search: string, k: int)
    requires 0 <= k < PageSize(size)
    requires PageStart(Max(page, 1), PageSize(size)) <= INT64_MAX
    requires PageStart(Max(page, 1), PageSize(size)) + k < |Matching(convs, search)|
    ensures k < |GetList(convs, page, size, search).items|
    ensures GetList(convs, page, size, search).items[k]
      == Matching(convs, search)[PageStart(Max(page, 1), PageSize(size)) + k]
  {
    PageAt(Matching(convs, search), Max(page, 1), PageSize(size), k);
  }
}
