/** `ForumThreads`: which threads of a forum match the selected filter, in
    which order they are listed, and how one listing page is composed of the
    announcements plus one page of the other threads. */
module Threads {

  import opened Common
  import Seqs

  /** The weight of an announcement, the highest thread weight
      (`misago.threads.models.ANNOUNCEMENT`). */
  const ANNOUNCEMENT := 2
  const PER_PAGE := 20
  const ORPHANS := 10

  /** The requesting user: anonymous users have no id. */
  datatype User = User(id: Option<int>, isAuthenticated: bool)

  /** A thread row with the columns the listing filters and sorts on;
      `forum` is the forum object attached to the loaded row, if any. */
  datatype Thread = Thread(
    id: int,
    starterId: Option<int>,
    hasReportedPosts: bool,
    isModerated: bool,
    hasModeratedPosts: bool,
    labelId: Option<int>,
    weight: int,
    replies: int,
    startedOn: int,
    lastPostOn: int,
    forum: Option<int>)

  // ---------------------------------------------------------------------
  // filter_threads

  function HasSlug(filterBy: Option<string>): Label -> bool
  {
    (l: Label) => Some(l.slug) == filterBy
  }

  /** The restriction `can_see_own_threads` imposes: the user's own threads,
      or for an anonymous user the threads with starter id 0. */
  predicate InOwnScope(t: Thread, acl: Acl, user: User)
  {
    acl.canSeeOwnThreads ==> t.starterId == (if user.isAuthenticated then user.id else Some(0))
  }

  /** The restriction the selected filter adds once the own-threads scope
      applies: a flag for the three moderation filters, else the label of the
      first label whose slug is the filter, else nothing. */
  predicate MatchesSelector(t: Thread, filterBy: Option<string>, labels: seq<Label>)
  {
    if filterBy == Some(REPORTED) then t.hasReportedPosts
    else if filterBy == Some(MODERATED_THREADS) then t.isModerated
    else if filterBy == Some(MODERATED_POSTS) then t.hasModeratedPosts
    else match Seqs.FirstIndex(labels, HasSlug(filterBy))
      case Some(i) => t.labelId == Some(labels[i].pk)
      case None => true
  }

  /** Whether `filter_threads` keeps a thread: `my-threads` bypasses the
      own-threads scope; every other filter is applied inside it. */
  predicate ThreadMatches(t: Thread, filterBy: Option<string>, acl: Acl, user: User, labels: seq<Label>)
  {
    if filterBy == Some(MY_THREADS) then t.starterId == user.id
    else InOwnScope(t, acl, user) && MatchesSelector(t, filterBy, labels)
  }

  function Matching(filterBy: Option<string>, acl: Acl, user: User, labels: seq<Label>): Thread -> bool
  {
    (t: Thread) => ThreadMatches(t, filterBy, acl, user, labels)
  }

  /** `filter_threads`: narrows the rows it is given, keeping their order. */
  function FilterThreads(ts: seq<Thread>, filterBy: Option<string>, acl: Acl, user: User, labels: seq<Label>): (r: seq<Thread>)
    ensures Seqs.IsSubseq(r, ts)
    ensures forall t :: t in r <==> t in ts && ThreadMatches(t, filterBy, acl, user, labels)
  {
    var p := Matching(filterBy, acl, user, labels);
    Seqs.FilterIsSubseq(ts, p);
    Seqs.FilterMembers(ts, p);
    Seqs.Filter(ts, p)
  }

  /** The filter rules as relations between listings:
      `my-threads` is exactly the user's threads whatever the ACL; without a
      filter only the own-threads scope applies (and nothing at all when the
      ACL lets the user see every thread); the three moderation filters and a
      label narrow the unfiltered listing by their flag or label; any other
      value lists exactly what no filter lists. */
  lemma {:induction false} FilterThreadsRules(ts: seq<Thread>, filterBy: Option<string>, acl: Acl, user: User, labels: seq<Label>)
    ensures var r := FilterThreads(ts, filterBy, acl, user, labels);
      var unfiltered := FilterThreads(ts, None, acl, user, labels);
      && (filterBy == Some(MY_THREADS) ==>
            forall t :: t in r <==> t in ts && t.starterId == user.id)
      && (!acl.canSeeOwnThreads ==> unfiltered == ts)
      && (filterBy == Some(REPORTED) ==>
            forall t :: t in r <==> t in unfiltered && t.hasReportedPosts)
      && (filterBy == Some(MODERATED_THREADS) ==>
            forall t :: t in r <==> t in unfiltered && t.isModerated)
      && (filterBy == Some(MODERATED_POSTS) ==>
            forall t :: t in r <==> t in unfiltered && t.hasModeratedPosts)
      && (filterBy !in {Some(MY_THREADS), Some(REPORTED),
                        Some(MODERATED_THREADS), Some(MODERATED_POSTS)} ==>
            match Seqs.FirstIndex(labels, HasSlug(filterBy))
            case Some(i) => forall t :: t in r <==> t in unfiltered && t.labelId == Some(labels[i].pk)
            case None => r == unfiltered)
  {
    var p := Matching(filterBy, acl, user, labels);
    var q := Matching(None, acl, user, labels);
    assert Seqs.FirstIndex(labels, HasSlug(None)).None?;
    if !acl.canSeeOwnThreads {
      assert forall t | t in ts :: q(t);
      Seqs.FilterKeepsAll(ts, q);
    }
    if filterBy !in {Some(MY_THREADS), Some(REPORTED),
                     Some(MODERATED_THREADS), Some(MODERATED_POSTS)}
       && Seqs.FirstIndex(labels, HasSlug(filterBy)).None? {
      assert forall t | t in ts :: p(t) == q(t);
      Seqs.FilterSamePredicate(ts, p, q);
    }
  }

  // ---------------------------------------------------------------------
  // sort and order_by

  /** The `(weight, key)` pair `sort` stores for `order_by`. */
  datatype OrderSpec = OrderSpec(weight: string, key: string)

  /** A Django ordering term is descending when it starts with '-'. */
  predicate IsDescending(term: string)
  {
    |term| > 0 && term[0] == '-'
  }

  function FieldOf(term: string): string
  {
    if IsDescending(term) then term[1..] else term
  }

  /** `sort`: weight first, in the direction of the key, then the key; an
      empty key fails on `sort_by[0]`. */
  function SortOrder(sortBy: string): (r: Result<OrderSpec>)
    ensures r.Err? <==> sortBy == ""
    ensures r.Err? ==> r.error == IndexError
    ensures r.Ok? ==> r.value.key == sortBy && FieldOf(r.value.weight) == "weight"
    ensures r.Ok? ==> (IsDescending(r.value.weight) <==> IsDescending(sortBy))
  {
    if sortBy == "" then Err(IndexError)
    else if sortBy[0] == '-' then Ok(OrderSpec("-weight", sortBy))
    else Ok(OrderSpec("weight", sortBy))
  }

  /** The thread columns an ordering term can name. */
  predicate KnownColumn(field: string)
  {
    field in {"id", "pk", "weight", "replies", "started_on", "last_post_on"}
  }

  function Column(t: Thread, field: string): int
    requires KnownColumn(field)
  {
    if field == "id" || field == "pk" then t.id
    else if field == "weight" then t.weight
    else if field == "replies" then t.replies
    else if field == "started_on" then t.startedOn
    else t.lastPostOn
  }

  predicate ValidOrder(o: OrderSpec)
  {
    KnownColumn(FieldOf(o.weight)) && KnownColumn(FieldOf(o.key))
  }

  /** A column value signed so that ascending order of the result is the
      order the term asks for. */
  function Directed(t: Thread, term: string): int
    requires KnownColumn(FieldOf(term))
  {
    if IsDescending(term) then -Column(t, FieldOf(term)) else Column(t, FieldOf(term))
  }

  /** `a` may be listed before `b`: compare by the first term, then the second. */
  predicate NotAfter(a: Thread, b: Thread, o: OrderSpec)
    requires ValidOrder(o)
  {
    Directed(a, o.weight) < Directed(b, o.weight)
    || (Directed(a, o.weight) == Directed(b, o.weight) && Directed(a, o.key) <= Directed(b, o.key))
  }

  predicate SortedBy(s: seq<Thread>, o: OrderSpec)
    requires ValidOrder(o)
  {
    forall i, j | 0 <= i < j < |s| :: NotAfter(s[i], s[j], o)
  }

  function Insert(t: Thread, s: seq<Thread>, o: OrderSpec): seq<Thread>
    requires ValidOrder(o)
  {
    if s == [] then [t]
    else if NotAfter(t, s[0], o) then [t] + s
    else [s[0]] + Insert(t, s[1..], o)
  }

  lemma NotAfterTotal(a: Thread, b: Thread, o: OrderSpec)
    requires ValidOrder(o)
    ensures NotAfter(a, b, o) || NotAfter(b, a, o)
  {
  }

  lemma NotAfterTransitive(a: Thread, b: Thread, c: Thread, o: OrderSpec)
    requires ValidOrder(o) && NotAfter(a, b, o) && NotAfter(b, c, o)
    ensures NotAfter(a, c, o)
  {
  }

  /** A sorted sequence stays sorted under a head that comes before all of it. */
  lemma ConsSorted(x: Thread, s: seq<Thread>, o: OrderSpec)
    requires ValidOrder(o) && SortedBy(s, o)
    requires forall y | y in s :: NotAfter(x, y, o)
    ensures SortedBy([x] + s, o)
  {
    var r := [x] + s;
    forall i, j | 0 <= i < j < |r| ensures NotAfter(r[i], r[j], o) {
      if i == 0 {
        assert r[j] == s[j - 1];
      } else {
        assert r[i] == s[i - 1] && r[j] == s[j - 1];
      }
    }
  }

  lemma {:induction false} InsertMultiset(t: Thread, s: seq<Thread>, o: OrderSpec)
    requires ValidOrder(o)
    ensures multiset(Insert(t, s, o)) == multiset(s) + multiset{t}
  {
    if s != [] && !NotAfter(t, s[0], o) {
      InsertMultiset(t, s[1..], o);
      assert s == [s[0]] + s[1..];
    }
  }

  lemma {:induction false} InsertSorted(t: Thread, s: seq<Thread>, o: OrderSpec)
    requires ValidOrder(o) && SortedBy(s, o)
    ensures SortedBy(Insert(t, s, o), o)
  {
    if s == [] {
    } else if NotAfter(t, s[0], o) {
      forall y | y in s ensures NotAfter(t, y, o) {
        var k :| 0 <= k < |s| && s[k] == y;
        if k > 0 {
          NotAfterTransitive(t, s[0], y, o);
        }
      }
      ConsSorted(t, s, o);
    } else {
      NotAfterTotal(t, s[0], o);
      var rest := Insert(t, s[1..], o);
      assert SortedBy(s[1..], o) by {
        forall i, j | 0 <= i < j < |s| - 1 ensures NotAfter(s[1..][i], s[1..][j], o) {
          assert s[1..][i] == s[i + 1] && s[1..][j] == s[j + 1];
        }
      }
      InsertSorted(t, s[1..], o);
      InsertMultiset(t, s[1..], o);
      forall x | x in rest ensures NotAfter(s[0], x, o) {
        assert x in multiset(rest);
        assert x == t || x in multiset(s[1..]);
      }
      ConsSorted(s[0], rest, o);
    }
  }

  /** A stable insertion sort standing for the database's ORDER BY. */
  function SortThreads(s: seq<Thread>, o: OrderSpec): (r: seq<Thread>)
    requires ValidOrder(o)
    ensures multiset(r) == multiset(s)
    ensures SortedBy(r, o)
  {
    if s == [] then []
    else
      var rest := SortThreads(s[1..], o);
      InsertSorted(s[0], rest, o);
      InsertMultiset(s[0], rest, o);
      assert s == [s[0]] + s[1..];
      Insert(s[0], rest, o)
  }

  /** `order_by(*sort_by)`: the rows sorted by the two terms, or a field
      error when a term names no thread column. */
  function OrderBy(ts: seq<Thread>, o: OrderSpec): (r: Result<seq<Thread>>)
    ensures r.Ok? <==> ValidOrder(o)
    ensures r.Ok? ==> SortedBy(r.value, o) && multiset(r.value) == multiset(ts)
    ensures r.Err? ==> r.error.FieldError?
  {
    if !KnownColumn(FieldOf(o.weight)) then Err(FieldError(FieldOf(o.weight)))
    else if !KnownColumn(FieldOf(o.key)) then Err(FieldError(FieldOf(o.key)))
    else Ok(SortThreads(ts, o))
  }

  /** Filtering a sorted sequence leaves it sorted. */
  lemma {:induction false} FilterKeepsSorted(s: seq<Thread>, p: Thread -> bool, o: OrderSpec)
    requires ValidOrder(o) && SortedBy(s, o)
    ensures SortedBy(Seqs.Filter(s, p), o)
  {
    if s != [] {
      FilterKeepsSorted(s[1..], p, o);
      Seqs.FilterMembers(s[1..], p);
      var rest := Seqs.Filter(s[1..], p);
      forall x | x in rest ensures NotAfter(s[0], x, o) {
        var k :| 1 <= k < |s| && s[k] == x;
      }
    }
  }

  // ---------------------------------------------------------------------
  // list

  function IsAnnouncement(t: Thread): bool
  {
    t.weight == ANNOUNCEMENT
  }

  function IsRegular(t: Thread): bool
  {
    t.weight < ANNOUNCEMENT
  }

  /** A paginator's settings: `paginate(..., 20, 10)` over `count` rows. */
  datatype PaginatorInfo = PaginatorInfo(count: nat, perPage: nat, orphans: nat)

  /** A page: rows `start` up to `end` of the paginated sequence. */
  datatype PageInfo = PageInfo(number: nat, start: nat, end: nat, paginator: PaginatorInfo)

  predicate PageFits(p: PageInfo, count: nat)
  {
    p.start <= p.end <= count && p.paginator == PaginatorInfo(count, PER_PAGE, ORPHANS)
  }

  /** The `paginate` helper, applied to the requested page number: it either
      fails or returns a contiguous slice of the rows it was given. */
  ghost predicate Paginates(paginateAt: nat -> Result<PageInfo>)
  {
    forall count: nat :: paginateAt(count).Ok? ==> PageFits(paginateAt(count).value, count)
  }

  function Stamp(t: Thread, forumId: int): Thread
  {
    t.(forum := Some(forumId))
  }

  function Stamped(s: seq<Thread>, forumId: int): (r: seq<Thread>)
    ensures |r| == |s|
  {
    seq(|s|, i requires 0 <= i < |s| => Stamp(s[i], forumId))
  }

  /** The visible rows `filter_threads` keeps, in their original order. */
  function MatchingRows(threadSet: seq<Thread>, visible: Thread -> bool, filterBy: Option<string>, user: User, forum: Forum): seq<Thread>
  {
    FilterThreads(Seqs.Filter(threadSet, visible), filterBy, forum.acl, user, forum.labels)
  }

  /** The page `list` stores: `paginate` over the matching rows below
      announcement weight. Only their number matters to it, so it does not
      depend on the ordering. */
  function ListingPage(threadSet: seq<Thread>, visible: Thread -> bool, filterBy: Option<string>,
                       user: User, forum: Forum, paginateAt: nat -> Result<PageInfo>): Result<PageInfo>
  {
    paginateAt(|Seqs.Filter(MatchingRows(threadSet, visible, filterBy, user, forum), IsRegular)|)
  }

  /** The threads `list` returns with the page it stored, or the error it
      raises. The querysets are lazy: `paginate` runs before the rows are
      read, so a failing page comes first, and an unknown ordering column
      fails only when the rows are read. On success: all announcements, then
      the page of the threads below announcement weight, in sort order, each
      carrying the forum. */
  function Listing(
    threadSet: seq<Thread>, visible: Thread -> bool, filterBy: Option<string>, o: OrderSpec,
    user: User, forum: Forum, paginateAt: nat -> Result<PageInfo>): Result<(seq<Thread>, PageInfo)>
    requires Paginates(paginateAt)
  {
    var matching := MatchingRows(threadSet, visible, filterBy, user, forum);
    match ListingPage(threadSet, visible, filterBy, user, forum, paginateAt)
    case Err(e) => Err(e)
    case Ok(p) =>
      match OrderBy(matching, o)
      case Err(e) => Err(e)
      case Ok(ordered) =>
        var regular := Seqs.Filter(ordered, IsRegular);
        CountKept(matching, ordered, IsRegular);
        Ok((Stamped(Seqs.Filter(ordered, IsAnnouncement) + regular[p.start..p.end], forum.id), p))
  }

  /** How `list` can fail: `paginate` rejects the page, or, once the page is
      stored, the ordering names no column. */
  lemma ListingErrors(
    threadSet: seq<Thread>, visible: Thread -> bool, filterBy: Option<string>, o: OrderSpec,
    user: User, forum: Forum, paginateAt: nat -> Result<PageInfo>)
    requires Paginates(paginateAt)
    ensures var l := Listing(threadSet, visible, filterBy, o, user, forum, paginateAt);
      var pg := ListingPage(threadSet, visible, filterBy, user, forum, paginateAt);
      && (l.Err? <==> pg.Err? || OrderBy(MatchingRows(threadSet, visible, filterBy, user, forum), o).Err?)
      && (pg.Err? ==> l == Err(pg.error))
      && (pg.Ok? && l.Err? ==> l.error.FieldError?)
      && (l.Ok? ==> l.value.1 == pg.value)
  {
  }

  /** Both parts of a listing page keep the sort order. */
  lemma PagePartsSorted(ordered: seq<Thread>, start: nat, end: nat, forumId: int, o: OrderSpec, ts: seq<Thread>)
    requires ValidOrder(o) && SortedBy(ordered, o)
    requires start <= end <= |Seqs.Filter(ordered, IsRegular)|
    requires ts == Stamped(Seqs.Filter(ordered, IsAnnouncement) + Seqs.Filter(ordered, IsRegular)[start..end], forumId)
    ensures var ann := |Seqs.Filter(ordered, IsAnnouncement)|;
      SortedBy(ts[..ann], o) && SortedBy(ts[ann..], o)
  {
    var announcements := Seqs.Filter(ordered, IsAnnouncement);
    var regular := Seqs.Filter(ordered, IsRegular);
    var n := |announcements|;
    FilterKeepsSorted(ordered, IsAnnouncement, o);
    FilterKeepsSorted(ordered, IsRegular, o);
    assert ts[..n] == Stamped(announcements, forumId);
    assert ts[n..] == Stamped(regular[start..end], forumId);
    StampedKeepsSorted(announcements, forumId, o);
    SliceKeepsSorted(regular, start, end, o);
    StampedKeepsSorted(regular[start..end], forumId, o);
  }

  /** Which rows a listing page holds: every announcement, then rows below
      announcement weight, each a stamped row of the sorted input. */
  lemma PageMembers(ordered: seq<Thread>, start: nat, end: nat, forumId: int, ts: seq<Thread>)
    requires start <= end <= |Seqs.Filter(ordered, IsRegular)|
    requires ts == Stamped(Seqs.Filter(ordered, IsAnnouncement) + Seqs.Filter(ordered, IsRegular)[start..end], forumId)
    ensures var ann := |Seqs.Filter(ordered, IsAnnouncement)|;
      && ann <= |ts|
      && |ts| - ann == end - start
      && (forall i | 0 <= i < |ts| :: ts[i].forum == Some(forumId))
      && (forall i | 0 <= i < ann :: ts[i].weight == ANNOUNCEMENT)
      && (forall i | ann <= i < |ts| :: ts[i].weight < ANNOUNCEMENT)
      && (forall t | t in ordered && t.weight == ANNOUNCEMENT :: Stamp(t, forumId) in ts[..ann])
      && (forall i | 0 <= i < |ts| :: exists t :: t in ordered && ts[i] == Stamp(t, forumId))
  {
    var announcements := Seqs.Filter(ordered, IsAnnouncement);
    var regular := Seqs.Filter(ordered, IsRegular);
    var src := announcements + regular[start..end];
    var n := |announcements|;
    Seqs.FilterMembers(ordered, IsAnnouncement);
    Seqs.FilterMembers(ordered, IsRegular);
    forall t | t in ordered && t.weight == ANNOUNCEMENT
      ensures Stamp(t, forumId) in ts[..n]
    {
      var k :| 0 <= k < n && announcements[k] == t;
      assert ts[..n][k] == Stamp(t, forumId);
    }
    forall i | 0 <= i < |ts|
      ensures exists t :: t in ordered && ts[i] == Stamp(t, forumId)
      ensures i < n ==> ts[i].weight == ANNOUNCEMENT
      ensures i >= n ==> ts[i].weight < ANNOUNCEMENT
    {
      assert ts[i] == Stamp(src[i], forumId);
      if i < n {
        assert src[i] in announcements;
      } else {
        assert src[i] == regular[start + (i - n)];
        assert src[i] in regular;
      }
    }
  }

  lemma SliceKeepsSorted(s: seq<Thread>, start: nat, end: nat, o: OrderSpec)
    requires ValidOrder(o) && SortedBy(s, o) && start <= end <= |s|
    ensures SortedBy(s[start..end], o)
  {
    var r := s[start..end];
    forall i, j | 0 <= i < j < |r| ensures NotAfter(r[i], r[j], o) {
      assert r[i] == s[start + i] && r[j] == s[start + j];
    }
  }

  /** What a successful listing guarantees: every thread carries the forum;
      first come all matching visible announcements, in sort order, then
      only threads below announcement weight, in sort order, forming one
      contiguous page; each listed thread is a visible, matching row of the
      forum. */
  lemma {:induction false} ListingGuarantees(
    threadSet: seq<Thread>, visible: Thread -> bool, filterBy: Option<string>, o: OrderSpec,
    user: User, forum: Forum, paginateAt: nat -> Result<PageInfo>, ts: seq<Thread>, p: PageInfo)
    requires Paginates(paginateAt)
    requires Listing(threadSet, visible, filterBy, o, user, forum, paginateAt) == Ok((ts, p))
    ensures ValidOrder(o)
    ensures var ann := |Seqs.Filter(MatchingRows(threadSet, visible, filterBy, user, forum), IsAnnouncement)|;
      && ann <= |ts|
      && |ts| - ann == p.end - p.start
      && (forall i | 0 <= i < |ts| :: ts[i].forum == Some(forum.id))
      && (forall i | 0 <= i < ann :: ts[i].weight == ANNOUNCEMENT)
      && (forall i | ann <= i < |ts| :: ts[i].weight < ANNOUNCEMENT)
      && SortedBy(ts[..ann], o)
      && SortedBy(ts[ann..], o)
      && (forall t | t in threadSet && visible(t) && ThreadMatches(t, filterBy, forum.acl, user, forum.labels)
                     && t.weight == ANNOUNCEMENT :: Stamp(t, forum.id) in ts[..ann])
      && (forall i | 0 <= i < |ts| ::
            exists t :: t in threadSet && visible(t)
              && ThreadMatches(t, filterBy, forum.acl, user, forum.labels) && ts[i] == Stamp(t, forum.id))
  {
    Seqs.FilterMembers(threadSet, visible);
    var matching := MatchingRows(threadSet, visible, filterBy, user, forum);
    var ordered := ListingParts(threadSet, visible, filterBy, o, user, forum, paginateAt, ts, p);
    PageMembers(ordered, p.start, p.end, forum.id, ts);
    PagePartsSorted(ordered, p.start, p.end, forum.id, o, ts);
    CountKept(matching, ordered, IsAnnouncement);
    SameMembers(matching, ordered);
    forall i | 0 <= i < |ts|
      ensures exists t :: t in threadSet && visible(t)
                && ThreadMatches(t, filterBy, forum.acl, user, forum.labels) && ts[i] == Stamp(t, forum.id)
    {
      assert exists t :: t in ordered && ts[i] == Stamp(t, forum.id);
      var t :| t in ordered && ts[i] == Stamp(t, forum.id);
      assert t in matching;
    }
  }

  /** A successful listing is the stamped page of the sorted matching rows. */
  lemma ListingParts(
    threadSet: seq<Thread>, visible: Thread -> bool, filterBy: Option<string>, o: OrderSpec,
    user: User, forum: Forum, paginateAt: nat -> Result<PageInfo>, ts: seq<Thread>, p: PageInfo)
    returns (ordered: seq<Thread>)
    requires Paginates(paginateAt)
    requires Listing(threadSet, visible, filterBy, o, user, forum, paginateAt) == Ok((ts, p))
    ensures var matching := MatchingRows(threadSet, visible, filterBy, user, forum);
      OrderBy(matching, o) == Ok(ordered)
    ensures ValidOrder(o) && SortedBy(ordered, o)
    ensures p.start <= p.end <= |Seqs.Filter(ordered, IsRegular)|
    ensures ts == Stamped(Seqs.Filter(ordered, IsAnnouncement) + Seqs.Filter(ordered, IsRegular)[p.start..p.end], forum.id)
  {
    var matching := MatchingRows(threadSet, visible, filterBy, user, forum);
    ordered := OrderBy(matching, o).value;
    CountKept(matching, ordered, IsRegular);
    assert paginateAt(|Seqs.Filter(matching, IsRegular)|) == Ok(p);
  }

  /** Rearranging rows keeps the same rows. */
  lemma SameMembers(a: seq<Thread>, b: seq<Thread>)
    requires multiset(a) == multiset(b)
    ensures forall t :: t in a <==> t in b
  {
    forall t ensures t in a <==> t in b {
      assert t in a <==> t in multiset(a);
      assert t in b <==> t in multiset(b);
    }
  }

  /** How many rows a filter keeps does not depend on the rows' order. */
  lemma {:induction false} CountKept(a: seq<Thread>, b: seq<Thread>, p: Thread -> bool)
    requires multiset(a) == multiset(b)
    ensures |Seqs.Filter(a, p)| == |Seqs.Filter(b, p)|
  {
    FilterMultiset(a, p);
    FilterMultiset(b, p);
    var fa := Seqs.Filter(a, p);
    var fb := Seqs.Filter(b, p);
    assert multiset(fa) == multiset(fb) by {
      forall x ensures multiset(fa)[x] == multiset(fb)[x] {
      }
    }
    assert |multiset(fa)| == |fa|;
    assert |multiset(fb)| == |fb|;
  }

  /** Filtering keeps each admitted value as often as it occurs. */
  lemma {:induction false} FilterMultiset(s: seq<Thread>, p: Thread -> bool)
    ensures forall x :: multiset(Seqs.Filter(s, p))[x] == if p(x) then multiset(s)[x] else 0
  {
    if s != [] {
      FilterMultiset(s[1..], p);
      assert s == [s[0]] + s[1..];
    }
  }

  /** Attaching the forum does not move a thread in the sort order. */
  lemma StampedKeepsSorted(s: seq<Thread>, forumId: int, o: OrderSpec)
    requires ValidOrder(o) && SortedBy(s, o)
    ensures SortedBy(Stamped(s, forumId), o)
  {
    var r := Stamped(s, forumId);
    forall i, j | 0 <= i < j < |r| ensures NotAfter(r[i], r[j], o) {
      assert NotAfter(s[i], s[j], o);
    }
  }

  /** The three loops of `list`: append the announcements, append the page's
      threads, then attach the forum to every collected thread. */
  method CollectThreads(announcements: seq<Thread>, pageThreads: seq<Thread>, forumId: int) returns (threads: seq<Thread>)
    ensures threads == Stamped(announcements + pageThreads, forumId)
  {
    threads := [];
    var i := 0;
    while i < |announcements|
      invariant 0 <= i <= |announcements|
      invariant threads == announcements[..i]
    {
      threads := threads + [announcements[i]];
      i := i + 1;
    }
    var j := 0;
    while j < |pageThreads|
      invariant 0 <= j <= |pageThreads|
      invariant threads == announcements + pageThreads[..j]
    {
      threads := threads + [pageThreads[j]];
      j := j + 1;
    }
    ghost var collected := threads;
    var k := 0;
    while k < |threads|
      invariant 0 <= k <= |threads| == |collected|
      invariant forall m | 0 <= m < k :: threads[m] == Stamp(collected[m], forumId)
      invariant forall m | k <= m < |threads| :: threads[m] == collected[m]
    {
      threads := threads[k := Stamp(threads[k], forumId)];
      k := k + 1;
    }
    assert collected == announcements + pageThreads;
    assert forall m | 0 <= m < |threads| :: threads[m] == Stamped(collected, forumId)[m];
  }

  // ---------------------------------------------------------------------
  // The stateful query object

  class ForumThreads {
    const user: User
    const forum: Forum
    var filterBy: Slot<Option<string>>
    var sortBy: Slot<OrderSpec>
    var page: Slot<PageInfo>
    var paginator: Slot<PaginatorInfo>

    constructor (user: User, forum: Forum)
      ensures this.user == user && this.forum == forum
      ensures filterBy == Unset && sortBy == Unset && page == Unset && paginator == Unset
      ensures Page().Err? && Paginator().Err?
    {
      this.user := user;
      this.forum := forum;
      filterBy := Unset;
      sortBy := Unset;
      page := Unset;
      paginator := Unset;
    }

    /** `filter`: remembers the filter to apply. */
    method Filter(filterBy: Option<string>)
      modifies this`filterBy
      ensures this.filterBy == Set(filterBy)
    {
      this.filterBy := Set(filterBy);
    }

    /** `sort`: remembers the ordering, or fails on an empty key. */
    method Sort(sortBy: string) returns (r: Result<OrderSpec>)
      modifies this`sortBy
      ensures r == SortOrder(sortBy)
      ensures this.sortBy == if r.Ok? then Set(r.value) else old(this.sortBy)
    {
      if sortBy == "" {
        return Err(IndexError);
      }
      var weight := if sortBy[0] == '-' then "-weight" else "weight";
      this.sortBy := Set(OrderSpec(weight, sortBy));
      r := Ok(OrderSpec(weight, sortBy));
    }

    /** `list`: runs the query, stores the page and its paginator, and
        returns the announcements followed by the page's threads, each
        carrying this forum. Reading an unassigned `filter_by` or `sort_by`
        fails before anything is stored; a rejected page stores nothing; an
        unknown ordering column fails after the page is stored. */
    method List(threadSet: seq<Thread>, visible: Thread -> bool, paginateAt: nat -> Result<PageInfo>)
      returns (r: Result<seq<Thread>>)
      requires Paginates(paginateAt)
      modifies this`page, this`paginator
      ensures filterBy.Unset? ==>
        r == Err(AttributeError("filter_by")) && page == old(page) && paginator == old(paginator)
      ensures filterBy.Set? && sortBy.Unset? ==>
        r == Err(AttributeError("sort_by")) && page == old(page) && paginator == old(paginator)
      ensures filterBy.Set? && sortBy.Set? ==>
        var pg := ListingPage(threadSet, visible, filterBy.value, user, forum, paginateAt);
        var l := Listing(threadSet, visible, filterBy.value, sortBy.value, user, forum, paginateAt);
        && (pg.Err? ==> page == old(page) && paginator == old(paginator))
        && (pg.Ok? ==> page == Set(pg.value) && paginator == Set(pg.value.paginator))
        && (l.Err? ==> r == Err(l.error))
        && (l.Ok? ==> r == Ok(l.value.0))
      ensures r.Ok? ==> Page() == Ok(page.value) && Paginator() == Ok(page.value.paginator)
    {
      if filterBy.Unset? {
        return Err(AttributeError("filter_by"));
      }
      var matching := MatchingRows(threadSet, visible, filterBy.value, user, forum);
      if sortBy.Unset? {
        return Err(AttributeError("sort_by"));
      }
      var p := paginateAt(|Seqs.Filter(matching, IsRegular)|);
      if p.Err? {
        return Err(p.error);
      }
      page := Set(p.value);
      paginator := Set(p.value.paginator);
      var ordered := OrderBy(matching, sortBy.value);
      if ordered.Err? {
        return Err(ordered.error);
      }
      var announcements := Seqs.Filter(ordered.value, IsAnnouncement);
      var regular := Seqs.Filter(ordered.value, IsRegular);
      CountKept(matching, ordered.value, IsRegular);
      var threads := CollectThreads(announcements, regular[p.value.start..p.value.end], forum.id);
      assert Listing(threadSet, visible, filterBy.value, sortBy.value, user, forum, paginateAt) == Ok((threads, p.value));
      r := Ok(threads);
    }

    /** `page`: available only once `list` has stored it. The handler names
        `error_message` without `self.`, so it raises a NameError rather than
        the intended RuntimeError. */
    function Page(): (r: Result<PageInfo>)
      reads this
      ensures r.Ok? <==> page.Set?
      ensures r.Ok? ==> r.value == page.value
      ensures r.Err? ==> r.error == NameError("error_message")
    {
      if page.Set? then Ok(page.value) else Err(NameError("error_message"))
    }

    /** `paginator`: as `page`, for the stored paginator. */
    function Paginator(): (r: Result<PaginatorInfo>)
      reads this
      ensures r.Ok? <==> paginator.Set?
      ensures r.Ok? ==> r.value == paginator.value
      ensures r.Err? ==> r.error == NameError("error_message")
    {
      if paginator.Set? then Ok(paginator.value) else Err(NameError("error_message"))
    }
  }
}
