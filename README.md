# Misago forum thread listing — a Dafny model

This project models the selection logic behind Misago's forum thread list
(`misago/threads/views/generic/forum.py`):

- **`ForumFiltering`** builds the filter catalogue of a forum from three ACL
  flags and the forum's labels, validates the `show` URL parameter against
  it, and builds the filter menu ("filtering dicts"): a default entry
  followed by one entry per filter, each with the URL that selects it. It
  also answers `is_active`, `current` and `choices`.
- **`ForumThreads`** decides which thread rows match the selected filter and
  the "can only see own threads" ACL flag (`filter_threads`). It turns a sort
  key into a `(weight, key)` ordering (`sort`), and composes a listing
  (`list`): every matching announcement, then one page of the threads below
  announcement weight, each stamped with the forum. It keeps the page and
  paginator for later reads.
- **`ForumView.dispatch`** lists subforums only when the forum's nested-set
  interval is wider than a leaf's. After cleaning, handing the selected filter
  to the thread query fails if cleaning left `show` unassigned. Otherwise the
  view redirects exactly when cleaning changed the URL kwargs.

Modules: `Common` (shared values: filter type names, `Option`, `Result`,
`Slot` for a Python attribute that may be unassigned, the forum and its ACL),
`Seqs` (order-keeping filtering and subsequences), `Filtering`, `Threads`
and `View`. The source's objects that update their fields in place
(`ForumFiltering`, `ForumThreads`) are classes. Each of their methods states
its result and every field it may change as functions of the old state. For
the menu memo, the `MenuAfter` predicate states this: the memo, filters and
link parameters are untouched when the memo was set, and otherwise they are
the menu built from the old filters and link parameters. The loops of
`get_available_filters`, `create_dicts`, `current`, `choices` and `list` are
`while` loops with invariants.

These quirks of the source are modelled as written:

- When `show` is truthy but names no filter, `clean_kwargs` removes it from
  the kwargs and never assigns `self.show`. The model leaves `show` as it
  was (`ShowAfterClean` returns the prior value).
- When `show` is truthy but names no filter and nothing assigned `show`
  before, `filter` reads an unassigned attribute. `dispatch` then fails
  before it can compare the kwargs, so it never redirects. Whether the helper
  base class gives `show` a default is outside this model, so `Dispatch` takes
  that prior value as a parameter and both outcomes are stated.
- The `page` and `paginator` properties refer to `error_message` without
  `self.`. Reading them before `list()` therefore raises a `NameError`, and
  the model returns `Err(NameError("error_message"))`.

## Model

| member | source | states |
|---|---|---|
| `Filtering.GetAvailableFilters` | misago/threads/views/generic/forum.py:25-62 | The append loop returns exactly the catalogue `AvailableFilters(acl, labels)`: the ACL-gated filters, then one filter per label. |
| `Filtering.AvailableFiltersLayout` | misago/threads/views/generic/forum.py:25-62 | `my-threads` appears only with `can_see_all_threads`, then `reported` only with `can_see_reports`, then `moderated-threads` and `moderated-posts` together only with `can_review_moderated_content`. Label filters follow in label order, with `is_label`, the slug as type and the label's name and css class. The length is the enabled-flag count (moderation counts 2) plus the number of labels. |
| `Filtering.FlagFiltersLayout` | misago/threads/views/generic/forum.py:28-52 | The ACL-gated filters alone: one per enabled flag (moderation gives two), in the order my-threads, reported, moderated-threads, moderated-posts, none of them a label and none with a css class. |
| `Filtering.ForumFiltering.constructor` | misago/threads/views/generic/forum.py:18-23 | Stores the forum, the link name and a copy of the link parameters, computes the catalogue, and leaves `show` and both memos unassigned. |
| `Filtering.ForumFiltering.CleanKwargs` | misago/threads/views/generic/forum.py:64-75 | A truthy available `show` is kept and assigned. A truthy unknown `show` is removed and `self.show` stays as it was. A missing or falsy `show` assigns None and returns the kwargs unchanged. Keeps the invariant that an assigned `show` is None or a truthy available type. |
| `Filtering.CleanChangesOnlyShow` | misago/threads/views/generic/forum.py:64-75 | Cleaning changes no key other than `show`. It keeps `show` unless it drops it, and the result equals the input exactly when `show` is not a truthy unknown type. |
| `Filtering.CleanIdempotent` | misago/threads/views/generic/forum.py:64-75 | The cleaned kwargs carry no truthy unknown `show`. Cleaning them again changes nothing and always assigns `show`. |
| `Filtering.CleanedShowIsAvailable` | misago/threads/views/generic/forum.py:64-75 | Cleaning preserves that an assigned `show` is None or a truthy available filter type. |
| `Filtering.ForumFiltering.Filter` | misago/threads/views/generic/forum.py:77-78 | Hands the assigned `show` to the thread query. With `show` unassigned it fails with an AttributeError on `show` and the query is untouched. |
| `Filtering.ForumFiltering.CreateDicts` | misago/threads/views/generic/forum.py:87-108 | Returns the menu for the link parameters it started from. The filters now hold their URLs, because the menu shares them, and their types are unchanged. The link parameters end as `MenuLinkParams` of the old ones. |
| `Filtering.MenuLinkParamsShape` | misago/threads/views/generic/forum.py:95-106 | Building the menu changes the link parameters only in `show`. `show` is absent when there are no filters and otherwise holds the last filter's type. |
| `Filtering.BuildMenu` | misago/threads/views/generic/forum.py:88-108 | The loop over the filters returns exactly `FilteringDicts` for the starting link parameters. The filters come back as the menu's own entries, with their types unchanged. It also returns the last `show` value set, or None when there are no filters. |
| `Filtering.FilteringDictsLayout` | misago/threads/views/generic/forum.py:87-108 | The menu has one entry more than the catalogue. The first entry has type None, is named "All threads" or "Your threads" by the ACL and links without `show`. That URL's parameters are exactly the starting ones without `show`. Each later entry is its filter plus a URL whose parameters differ from the starting ones only in `show`, which equals the entry's type. |
| `Filtering.ForumFiltering.GetFilteringDicts` | misago/threads/views/generic/forum.py:80-85 | With the memo set, it returns the memo and changes nothing. Otherwise it memoises and returns `FilteringDicts` of the old link parameters and filters. The filters become the menu's entries and the link parameters end as `MenuLinkParams` (`MenuAfter`). |
| `Filtering.ForumFiltering.IsActive` | misago/threads/views/generic/forum.py:110-112 | Fails while `show` is unassigned. Otherwise true exactly when a filter is selected. |
| `Filtering.ForumFiltering.Current` | misago/threads/views/generic/forum.py:114-122 | Returns the memo if set, and then nothing changes. Otherwise it obtains the menu as `get_filtering_dics` does (`MenuAfter`). It then fails with an AttributeError on `show` while `show` is unassigned, leaving the memo unset, or returns the first menu entry whose type equals `show` and memoises it, or returns None (not memoised) when no entry has that type. Since the object keeps an existing menu's filter types equal to those of its filters, and an assigned `show` is None or one of those types, an assigned `show` always yields an entry. |
| `Filtering.FindCurrent` | misago/threads/views/generic/forum.py:119-122 | The search loop returns the entry at `CurrentIndex`, the first position whose type equals `show`, or None when no entry has it. |
| `Filtering.ForumFiltering.Choices` | misago/threads/views/generic/forum.py:124-132 | Fails with an AttributeError on `show` while `show` is unassigned, before the menu is built, and changes nothing. Otherwise it obtains the menu as `get_filtering_dics` does (`MenuAfter`). With truthy `show` it returns every entry whose type differs from `show`, in order; otherwise every entry but the first. |
| `Filtering.OtherEntries` | misago/threads/views/generic/forum.py:125-130 | The collecting loop returns `Excluding`: the entries whose type differs from `show`, in menu order. |
| `Filtering.ChoicesAreTheOtherEntries` | misago/threads/views/generic/forum.py:124-132 | On a menu, with `show` None or truthy, both branches of `choices` are "every entry except those of the current type". The result is an order-keeping subsequence of the menu. |
| `Filtering.CurrentIsDefaultIffInactive` | misago/threads/views/generic/forum.py:110-132 | On the built menu, with `show` as cleaning leaves it, `current` exists. It is the default entry exactly when the filter is inactive, and it never appears among `choices`. |
| `Threads.ForumThreads.constructor` | misago/threads/views/generic/forum.py:136-138 | Stores user and forum. Filter, ordering, page and paginator are unassigned, so `page` and `paginator` fail. |
| `Threads.ForumThreads.Filter` | misago/threads/views/generic/forum.py:140-141 | Stores the filter to apply. |
| `Threads.SortOrder` | misago/threads/views/generic/forum.py:143-148 | An empty key fails with an IndexError. Otherwise the ordering is the weight column followed by the key itself, and the weight's direction matches the key's. |
| `Threads.ForumThreads.Sort` | misago/threads/views/generic/forum.py:143-148 | Stores the ordering `SortOrder` gives. On an empty key it fails and stores nothing. |
| `Threads.FilterThreads` | misago/threads/views/generic/forum.py:176-196 | The result is an order-keeping subsequence of the input rows. A row is kept exactly when `ThreadMatches`: `my-threads` means the user's own rows, and every other filter applies inside the own-threads scope. |
| `Threads.FilterThreadsRules` | misago/threads/views/generic/forum.py:176-196 | `my-threads` is exactly the user's rows whatever the ACL. With no filter and without `can_see_own_threads` nothing is removed. `reported`, `moderated-threads` and `moderated-posts` narrow the unfiltered listing to rows with that flag. A label slug narrows it to the first such label's pk. Any other value lists exactly what no filter lists. |
| `Threads.OrderBy` | misago/threads/views/generic/forum.py:154 | Fails with a field error when a term names no thread column. Otherwise it returns a permutation of the rows, sorted by the two terms in their directions. |
| `Threads.CollectThreads` | misago/threads/views/generic/forum.py:162-169 | The returned list is the announcements followed by the page's threads, each with the forum attached. |
| `Threads.PagePartsSorted` | misago/threads/views/generic/forum.py:156-169 | Both the announcement part and the page part of the listing are sorted by the requested ordering. |
| `Threads.PageMembers` | misago/threads/views/generic/forum.py:156-169 | The page holds every announcement of the sorted rows, then `end - start` rows below announcement weight. Every entry is a row of the input with the forum attached. |
| `Threads.ListingGuarantees` | misago/threads/views/generic/forum.py:150-174 | A successful `list` returns all matching visible announcements first, then one page of lower-weight threads. Both parts are sorted, and every entry is a visible matching row of the forum with the forum attached. |
| `Threads.ListingParts` | misago/threads/views/generic/forum.py:150-174 | A successful listing sorted the matching rows without error, and the page lies within the lower-weight rows. The result is those rows' announcements and the page slice, stamped with the forum. |
| `Threads.ListingErrors` | misago/threads/views/generic/forum.py:150-163 | `list` fails exactly when `paginate` fails or the ordering names no column. A `paginate` failure comes first. Once the page exists, the only failure left is the field error, and a successful listing carries that page. |
| `Threads.ForumThreads.List` | misago/threads/views/generic/forum.py:150-174 | Fails with an AttributeError on `filter_by`, then on `sort_by`, while either is unassigned, storing nothing. If `paginate` fails, nothing is stored. Otherwise it stores the page and its paginator and returns what `Listing` computes, which may still be the field error of an unknown ordering column. |
| `Threads.ForumThreads.Page` | misago/threads/views/generic/forum.py:201-206 | Available only once `list` stored a page. Before that it fails with a NameError on `error_message`. |
| `Threads.ForumThreads.Paginator` | misago/threads/views/generic/forum.py:208-213 | Available only once `list` stored a paginator. Before that it fails with a NameError on `error_message`. |
| `View.HasSubforums` | misago/threads/views/generic/forum.py:230-233 | A leaf (`rght == lft + 1`) has no subforums. For a well-formed nested-set interval the test holds exactly when the forum has descendants. |
| `View.Dispatch` | misago/threads/views/generic/forum.py:235-249 | Pops `page`, cleans `show` against the forum's catalogue, and fails when `filter` reads an unassigned `show`. Otherwise it redirects to the cleaned kwargs when they differ from the popped ones, or goes on to the listing (`Render`) with the cleaned kwargs and the selected filter. `Render` means only that the view gets past the comparison at line 248. |
| `View.RedirectIffUnknownShow` | misago/threads/views/generic/forum.py:235-249 | When the earlier cleaning steps accept the kwargs, a truthy `show` naming no filter is the only thing that keeps the view from reaching the listing. With no prior `show` the view fails with an AttributeError at `filter`. With one it redirects to the kwargs minus `show`. A page number never causes either, and `Render` carries the cleaned `show`. |
| `View.RedirectTargetRenders` | misago/threads/views/generic/forum.py:235-249 | Following a redirect never redirects or fails again, provided the earlier cleaning steps accept the target. |

## Left out

- Thread visibility (`exclude_invisible_threads`) is a parameter `visible: Thread -> bool`; its rules live outside this file.
- The `paginate` helper is a parameter `paginateAt`, already applied to the requested page number. It is only assumed to fail or return a contiguous slice of the rows with a paginator over them, 20 per page and 10 orphans. How it parses the page number and rejects pages is not modelled.
- `reverse()` URLs and `ugettext` strings are symbolic values (`Url.Reverse`, `Text.Translated`); `redirect` becomes `Response.Redirect`, and reaching the listing and `render` becomes `Response.Render`.
- `label_threads`, `make_threads_read_aware`, `Label.objects.get_forum_labels`, `get_forum`, `get_forums_list` and `get_forum_path` are database-backed collaborators. The forum's labels are an input; the subforum list itself is not modelled, only the test that decides whether to fetch it.
- `ThreadsView.clean_kwargs`, `Sorting` and `Helper` are defined in `misago/threads/views/generic/threads.py`, which is not part of this model. Their cleaning result is the `preCleaned` input of `View.Dispatch`. Which key `Sorting` passes to `sort` is not modelled.
- `Helper` may define a class-level default for `show`; `misago/threads/views/generic/threads.py` is not part of this model. `Dispatch` therefore takes that default as `priorShow`, with `Unset` meaning there is none. A `ForumFiltering` object starts with `show` unassigned.
- `sorting.sort(threads)` (forum.py:245) belongs to `Sorting`, which is not part of this model. `Dispatch` assumes it succeeds.
- View.Dispatch: `Render` means the view goes on past the comparison at forum.py:248. The listing's own failures at forum.py:258-260 (`threads.list` and the paginator) are modelled by `Threads.ForumThreads.List`, not inside `Dispatch`, so a `Render` answer may still end in one of them.
- `list` reads the rows lazily, as Django querysets do: `paginate` only counts the rows below announcement weight. An ordering term that is well formed but names no column therefore fails when the rows are first read (forum.py:163), after the page and paginator are stored. A malformed term, such as `--x`, is rejected by Django's `order_by` itself at forum.py:154; the model does not separate the two cases, since `Sorting` is taken to pass only keys of the form `name` or `-name`. The model follows this reading of the queryset semantics.
- `misago/threads/models.py` is not part of this model. `ANNOUNCEMENT` is taken as 2; only its role as the top weight matters. The sortable columns are taken as `id`/`pk`, `weight`, `replies`, `started_on` and `last_post_on`, as integers.
- Threads.OrderBy: the database leaves the order of rows with equal sort keys unspecified. The model sorts stably, and its contract states only sortedness and permutation.
- In-place updates and aliasing are modelled on values. `clean_kwargs` pops from the caller's dict, and `list` sets `thread.forum` on the loaded rows. If the view's and the sorting helper's cleaning returned the very dict they were given, the in-place pop would also change the `kwargs` that `dispatch` compares against, and the redirect would not happen. The model compares values.
- Label filtering, URL kwargs and slugs are plain strings; no Unicode handling.
- In `create_dicts` the link parameters change only in their `show` key on each pass. `BuildMenu` therefore builds each URL from the parameters without `show` plus that pass's type. `CreateDicts` then assigns the final parameters from the last type set. The dict it ends with is the same, but the intermediate states are not modelled.
