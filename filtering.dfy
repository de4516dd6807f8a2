/** `ForumFiltering`: the catalogue of thread filters a forum offers, the
    validation of the `show` URL parameter against it, and the filter menu
    ("filtering dicts") built from it. */
module Filtering {

  import opened Common
  import Seqs
  import Threads

  /** A display string: a translated message id, or a label's own name. */
  datatype Text = Translated(msgid: string) | Verbatim(text: string)

  /** The URL `reverse(link_name, kwargs=...)` would produce, kept symbolic. */
  datatype Url = Reverse(linkName: string, kwargs: map<string, string>)

  /** One filter dict: `type` (None for the default entry), `name`,
      `is_label`, `css_class` (label filters only) and `url` (added by the
      menu builder). */
  datatype FilterEntry = FilterEntry(
    filterType: Option<string>,
    name: Text,
    isLabel: bool,
    cssClass: Option<string>,
    url: Option<Url>)

  // ---------------------------------------------------------------------
  // The filter catalogue

  function Builtin(filterType: string, msgid: string): FilterEntry
  {
    FilterEntry(Some(filterType), Translated(msgid), false, None, None)
  }

  function LabelFilter(lab: Label): FilterEntry
  {
    FilterEntry(Some(lab.slug), Verbatim(lab.name), true, Some(lab.cssClass), None)
  }

  /** The ACL-gated filters, in the order the source appends them. */
  function FlagFilters(acl: Acl): seq<FilterEntry>
  {
    (if acl.canSeeAllThreads then [Builtin(MY_THREADS, "My threads")] else [])
    + (if acl.canSeeReports then [Builtin(REPORTED, "With reported posts")] else [])
    + (if acl.canReviewModeratedContent
       then [Builtin(MODERATED_THREADS, "Moderated threads"), Builtin(MODERATED_POSTS, "With moderated posts")]
       else [])
  }

  function LabelFilters(labels: seq<Label>): seq<FilterEntry>
  {
    seq(|labels|, i requires 0 <= i < |labels| => LabelFilter(labels[i]))
  }

  /** What `get_available_filters` returns for a forum's ACL and labels. */
  function AvailableFilters(acl: Acl, labels: seq<Label>): seq<FilterEntry>
  {
    FlagFilters(acl) + LabelFilters(labels)
  }

  /** How many ACL-gated filters a forum offers: moderation brings two. */
  function FlagCount(acl: Acl): nat
  {
    (if acl.canSeeAllThreads then 1 else 0)
    + (if acl.canSeeReports then 1 else 0)
    + (if acl.canReviewModeratedContent then 2 else 0)
  }

  /** Every entry of a filter list has a type (only the menu's default lacks one). */
  predicate AllTyped(fs: seq<FilterEntry>)
  {
    forall i | 0 <= i < |fs| :: fs[i].filterType.Some?
  }

  /** `[method['type'] for method in self.filters]` */
  function TypesOf(fs: seq<FilterEntry>): (r: seq<Option<string>>)
    ensures |r| == |fs|
  {
    seq(|fs|, i requires 0 <= i < |fs| => fs[i].filterType)
  }

  lemma SameTypes(a: seq<FilterEntry>, b: seq<FilterEntry>)
    requires |a| == |b|
    requires forall j | 0 <= j < |a| :: a[j].filterType == b[j].filterType
    ensures TypesOf(a) == TypesOf(b)
  {
  }

  /** A menu assembled entry by entry, as `create_dicts` does, is the menu. */
  lemma LinkedMenu(acl: Acl, linkName: string, params: map<string, string>, fs0: seq<FilterEntry>, ds: seq<FilterEntry>)
    requires AllTyped(fs0) && |ds| == |fs0| + 1
    requires ds[0] == DefaultEntry(acl, linkName, params)
    requires forall j | 0 <= j < |fs0| :: ds[j + 1] == Linked(fs0[j], linkName, params)
    ensures ds == FilteringDicts(acl, linkName, params, fs0)
    ensures AllTyped(ds[1..]) && TypesOf(ds[1..]) == TypesOf(fs0)
  {
    SameTypes(ds[1..], fs0);
  }

  /** The catalogue's layout: my-threads, reported, the two moderation
      filters (together or not at all), then one label filter per label in
      label order; the length is the enabled-flag count plus the labels. */
  lemma AvailableFiltersLayout(acl: Acl, labels: seq<Label>)
    ensures var fs := AvailableFilters(acl, labels);
      var all := if acl.canSeeAllThreads then 1 else 0;
      var rep := if acl.canSeeReports then 1 else 0;
      && |fs| == FlagCount(acl) + |labels|
      && AllTyped(fs)
      && (acl.canSeeAllThreads ==> fs[0].filterType == Some(MY_THREADS))
      && (acl.canSeeReports ==> fs[all].filterType == Some(REPORTED))
      && (acl.canReviewModeratedContent ==>
            fs[all + rep].filterType == Some(MODERATED_THREADS)
            && fs[all + rep + 1].filterType == Some(MODERATED_POSTS))
      && (forall i | 0 <= i < FlagCount(acl) :: !fs[i].isLabel && fs[i].cssClass.None?)
      && (forall i | 0 <= i < |labels| ::
            fs[FlagCount(acl) + i].isLabel
            && fs[FlagCount(acl) + i].filterType == Some(labels[i].slug)
            && fs[FlagCount(acl) + i].name == Verbatim(labels[i].name)
            && fs[FlagCount(acl) + i].cssClass == Some(labels[i].cssClass))
  {
    var fs := AvailableFilters(acl, labels);
    var flags := FlagFilters(acl);
    FlagFiltersLayout(acl);
    assert forall i | 0 <= i < |flags| :: fs[i] == flags[i];
    assert forall i | 0 <= i < |labels| :: fs[|flags| + i] == LabelFilter(labels[i]);
  }

  /** The ACL-gated part of the catalogue on its own. */
  lemma FlagFiltersLayout(acl: Acl)
    ensures var flags := FlagFilters(acl);
      var all := if acl.canSeeAllThreads then 1 else 0;
      var rep := if acl.canSeeReports then 1 else 0;
      && |flags| == FlagCount(acl)
      && AllTyped(flags)
      && (acl.canSeeAllThreads ==> flags[0].filterType == Some(MY_THREADS))
      && (acl.canSeeReports ==> flags[all].filterType == Some(REPORTED))
      && (acl.canReviewModeratedContent ==>
            flags[all + rep].filterType == Some(MODERATED_THREADS)
            && flags[all + rep + 1].filterType == Some(MODERATED_POSTS))
      && (forall i | 0 <= i < |flags| :: !flags[i].isLabel && flags[i].cssClass.None?)
  {
    var flags := FlagFilters(acl);
    var all := if acl.canSeeAllThreads then [Builtin(MY_THREADS, "My threads")] else [];
    var rep := if acl.canSeeReports then [Builtin(REPORTED, "With reported posts")] else [];
    var moderation := if acl.canReviewModeratedContent
      then [Builtin(MODERATED_THREADS, "Moderated threads"), Builtin(MODERATED_POSTS, "With moderated posts")]
      else [];
    assert flags == all + rep + moderation;
    assert forall i | 0 <= i < |flags| :: flags[i] in all || flags[i] in rep || flags[i] in moderation;
  }

  /** `get_available_filters`: appends the gated filters, then loops over
      the labels appending one filter each. */
  method GetAvailableFilters(forum: Forum) returns (filters: seq<FilterEntry>)
    ensures filters == AvailableFilters(forum.acl, forum.labels)
  {
    filters := [];
    if forum.acl.canSeeAllThreads {
      filters := filters + [Builtin(MY_THREADS, "My threads")];
    }
    if forum.acl.canSeeReports {
      filters := filters + [Builtin(REPORTED, "With reported posts")];
    }
    if forum.acl.canReviewModeratedContent {
      filters := filters + [Builtin(MODERATED_THREADS, "Moderated threads"),
                            Builtin(MODERATED_POSTS, "With moderated posts")];
    }
    var labels := forum.labels;
    var i := 0;
    while i < |labels|
      invariant 0 <= i <= |labels|
      invariant filters == FlagFilters(forum.acl) + LabelFilters(labels[..i])
    {
      assert LabelFilters(labels[..i + 1]) == LabelFilters(labels[..i]) + [LabelFilter(labels[i])];
      filters := filters + [LabelFilter(labels[i])];
      i := i + 1;
    }
    assert labels[..i] == labels;
  }

  // ---------------------------------------------------------------------
  // Validating the `show` parameter

  /** The URL kwargs `clean_kwargs` returns: a truthy `show` that names no
      available filter is dropped; anything else is returned as it came. */
  function CleanedKwargs(kwargs: map<string, string>, types: seq<Option<string>>): map<string, string>
  {
    var show := Get(kwargs, SHOW);
    if Truthy(show) && show !in types then kwargs - {SHOW} else kwargs
  }

  /** The value of `self.show` after `clean_kwargs`, given its value before.
      The branch that drops an unknown `show` never assigns the attribute,
      so it keeps whatever it had. */
  function ShowAfterClean(kwargs: map<string, string>, types: seq<Option<string>>, prior: Slot<Option<string>>): Slot<Option<string>>
  {
    var show := Get(kwargs, SHOW);
    if !Truthy(show) then Set(None)
    else if show in types then Set(show)
    else prior
  }

  /** Cleaning touches no key other than `show`, and keeps `show` unless it
      removes it. */
  lemma CleanChangesOnlyShow(kwargs: map<string, string>, types: seq<Option<string>>)
    ensures var r := CleanedKwargs(kwargs, types);
      && (forall k | k != SHOW :: (k in r <==> k in kwargs) && (k in r ==> r[k] == kwargs[k]))
      && (SHOW in r ==> SHOW in kwargs && r[SHOW] == kwargs[SHOW])
      && (r == kwargs <==> !(Truthy(Get(kwargs, SHOW)) && Get(kwargs, SHOW) !in types))
  {
    var r := CleanedKwargs(kwargs, types);
    if Truthy(Get(kwargs, SHOW)) && Get(kwargs, SHOW) !in types {
      assert SHOW !in r && SHOW in kwargs;
    }
  }

  /** The cleaned kwargs carry no unknown truthy `show`, so cleaning them
      again changes nothing, and the second pass always assigns `show`. */
  lemma CleanIdempotent(kwargs: map<string, string>, types: seq<Option<string>>, prior: Slot<Option<string>>)
    ensures var r := CleanedKwargs(kwargs, types);
      && (Truthy(Get(r, SHOW)) ==> Get(r, SHOW) in types)
      && CleanedKwargs(r, types) == r
      && ShowAfterClean(r, types, prior) == Set(if Truthy(Get(r, SHOW)) then Get(r, SHOW) else None)
  {
  }

  /** Once assigned by cleaning, `show` is None or a truthy available type. */
  lemma CleanedShowIsAvailable(kwargs: map<string, string>, types: seq<Option<string>>, prior: Slot<Option<string>>)
    requires prior.Set? && prior.value.Some? ==> Truthy(prior.value) && prior.value in types
    ensures var s := ShowAfterClean(kwargs, types, prior);
      s.Set? && s.value.Some? ==> Truthy(s.value) && s.value in types
  {
  }

  // ---------------------------------------------------------------------
  // The filter menu

  function DefaultName(acl: Acl): Text
  {
    Translated(if acl.canSeeAllThreads then "All threads" else "Your threads")
  }

  /** The menu's first entry: no type, linking to the listing without `show`. */
  function DefaultEntry(acl: Acl, linkName: string, params: map<string, string>): FilterEntry
  {
    FilterEntry(None, DefaultName(acl), false, None, Some(Reverse(linkName, params - {SHOW})))
  }

  /** A filter with the URL that selects it: the link parameters with `show`
      set to the filter's type. */
  function Linked(f: FilterEntry, linkName: string, params: map<string, string>): FilterEntry
    requires f.filterType.Some?
  {
    f.(url := Some(Reverse(linkName, (params - {SHOW})[SHOW := f.filterType.value])))
  }

  /** What `create_dicts` returns for the link parameters it starts from. */
  function FilteringDicts(acl: Acl, linkName: string, params: map<string, string>, filters: seq<FilterEntry>): seq<FilterEntry>
    requires AllTyped(filters)
  {
    [DefaultEntry(acl, linkName, params)]
    + seq(|filters|, i requires 0 <= i < |filters| => Linked(filters[i], linkName, params))
  }

  /** The link parameters `create_dicts` leaves behind: `show` popped, then
      set to each filter's type in turn, so the last filter's type remains. */
  function MenuLinkParams(params: map<string, string>, filters: seq<FilterEntry>): map<string, string>
    requires AllTyped(filters)
  {
    if filters == [] then params - {SHOW}
    else (params - {SHOW})[SHOW := filters[|filters| - 1].filterType.value]
  }

  /** Building the menu changes the link parameters only in `show`, which is
      absent when there are no filters and otherwise the last filter's type. */
  lemma MenuLinkParamsShape(params: map<string, string>, filters: seq<FilterEntry>)
    requires AllTyped(filters)
    ensures var r := MenuLinkParams(params, filters);
      && r - {SHOW} == params - {SHOW}
      && (SHOW in r <==> filters != [])
      && (filters != [] ==> Some(r[SHOW]) == filters[|filters| - 1].filterType)
  {
    if filters != [] {
      var t := filters[|filters| - 1].filterType.value;
      assert (params - {SHOW})[SHOW := t] - {SHOW} == params - {SHOW};
    }
  }

  /** The shape every menu has: a typed-None default first, typed filters after. */
  predicate MenuShaped(ds: seq<FilterEntry>)
  {
    |ds| >= 1 && ds[0].filterType.None? && forall i | 1 <= i < |ds| :: ds[i].filterType.Some?
  }

  /** The menu has one entry more than the catalogue; the default comes first,
      is named by the ACL and links without `show`; each later entry is its
      filter with a URL whose parameters differ from the starting ones only
      in `show`, which is the entry's type. */
  lemma FilteringDictsLayout(acl: Acl, linkName: string, params: map<string, string>, filters: seq<FilterEntry>)
    requires AllTyped(filters)
    ensures var ds := FilteringDicts(acl, linkName, params, filters);
      && |ds| == 1 + |filters|
      && MenuShaped(ds)
      && ds[0].name == Translated(if acl.canSeeAllThreads then "All threads" else "Your threads")
      && !ds[0].isLabel
      && ds[0].url.Some? && ds[0].url.value.linkName == linkName
      && SHOW !in ds[0].url.value.kwargs
      && ds[0].url.value.kwargs == params - {SHOW}
      && (forall i | 1 <= i < |ds| ::
            && ds[i].(url := None) == filters[i - 1].(url := None)
            && ds[i].url.Some? && ds[i].url.value.linkName == linkName
            && SHOW in ds[i].url.value.kwargs
            && Some(ds[i].url.value.kwargs[SHOW]) == ds[i].filterType
            && ds[i].url.value.kwargs - {SHOW} == params - {SHOW})
  {
    var ds := FilteringDicts(acl, linkName, params, filters);
    forall i | 1 <= i < |ds|
      ensures ds[i].url.value.kwargs - {SHOW} == params - {SHOW}
    {
      var t := filters[i - 1].filterType.value;
      assert ds[i].url.value.kwargs == (params - {SHOW})[SHOW := t];
      assert (params - {SHOW})[SHOW := t] - {SHOW} == params - {SHOW};
    }
  }

  /** The entries `choices` lists: all of them except those whose type is
      `show` when `show` is truthy, and all but the first otherwise. */
  function ChoicesOf(ds: seq<FilterEntry>, show: Option<string>): seq<FilterEntry>
  {
    if Truthy(show) then Excluding(ds, show)
    else if |ds| == 0 then [] else ds[1..]
  }

  function HasType(show: Option<string>): FilterEntry -> bool
  {
    (e: FilterEntry) => e.filterType == show
  }

  function TypeDiffers(show: Option<string>): FilterEntry -> bool
  {
    (e: FilterEntry) => e.filterType != show
  }

  function Excluding(ds: seq<FilterEntry>, show: Option<string>): seq<FilterEntry>
  {
    Seqs.Filter(ds, TypeDiffers(show))
  }

  /** On a menu, with `show` either None or truthy (the only values cleaning
      assigns), `choices` is every entry but those of the current type, in
      menu order. */
  lemma {:induction false} ChoicesAreTheOtherEntries(ds: seq<FilterEntry>, show: Option<string>)
    requires MenuShaped(ds)
    requires show.None? || Truthy(show)
    ensures ChoicesOf(ds, show) == Excluding(ds, show)
    ensures Seqs.IsSubseq(ChoicesOf(ds, show), ds)
    ensures forall e :: e in ChoicesOf(ds, show) <==> e in ds && e.filterType != show
  {
    Seqs.FilterMembers(ds, TypeDiffers(show));
    Seqs.FilterIsSubseq(ds, TypeDiffers(show));
    if show.None? {
      assert ds == [ds[0]] + ds[1..];
      assert !TypeDiffers(show)(ds[0]);
      assert forall e | e in ds[1..] :: TypeDiffers(show)(e);
      Seqs.FilterKeepsAll(ds[1..], TypeDiffers(show));
    }
  }

  /** `current` is the first menu entry whose type equals `show`. */
  function CurrentIndex(ds: seq<FilterEntry>, show: Option<string>): Option<nat>
  {
    Seqs.FirstIndex(ds, HasType(show))
  }

  /** On the menu built from the catalogue, with `show` as cleaning leaves it
      (None, or a truthy available type): `current` exists, it is the default
      exactly when the filter is inactive, and it is never among `choices`. */
  lemma {:induction false} CurrentIsDefaultIffInactive(
    acl: Acl, linkName: string, params: map<string, string>, filters: seq<FilterEntry>, show: Option<string>)
    requires AllTyped(filters)
    requires show.None? || (Truthy(show) && show in TypesOf(filters))
    ensures var ds := FilteringDicts(acl, linkName, params, filters);
      var c := CurrentIndex(ds, show);
      && c.Some?
      && (c == Some(0) <==> !Truthy(show))
      && (c == Some(0) ==> ds[0] == DefaultEntry(acl, linkName, params))
      && ds[c.value] !in ChoicesOf(ds, show)
  {
    var ds := FilteringDicts(acl, linkName, params, filters);
    FilteringDictsLayout(acl, linkName, params, filters);
    if show.Some? {
      var j :| 0 <= j < |filters| && TypesOf(filters)[j] == show;
      assert HasType(show)(ds[j + 1]);
      assert !HasType(show)(ds[0]);
    }
    ChoicesAreTheOtherEntries(ds, show);
  }

  /** The loop of `create_dicts` on values: starts from the link parameters
      without `show`, then gives each filter the URL with `show` set to its
      type, appending it to the menu. Returns the menu, the filters with their
      URLs (the very entries the menu holds) and the last `show` value the
      link parameters received. */
  method BuildMenu(acl: Acl, linkName: string, params0: map<string, string>, fs0: seq<FilterEntry>)
    returns (ds: seq<FilterEntry>, fs: seq<FilterEntry>, last: Option<string>)
    requires AllTyped(fs0)
    ensures ds == FilteringDicts(acl, linkName, params0, fs0)
    ensures fs == ds[1..] && AllTyped(fs) && TypesOf(fs) == TypesOf(fs0)
    ensures last == if fs0 == [] then None else fs0[|fs0| - 1].filterType
  {
    var base := params0 - {SHOW};
    last := None;
    ds := [FilterEntry(None, DefaultName(acl), false, None, Some(Reverse(linkName, base)))];
    var i := 0;
    while i < |fs0|
      invariant 0 <= i <= |fs0| && |ds| == i + 1
      invariant ds[0] == DefaultEntry(acl, linkName, params0)
      invariant forall j | 0 <= j < i :: ds[j + 1] == Linked(fs0[j], linkName, params0)
      invariant last == if i == 0 then None else fs0[i - 1].filterType
    {
      last := fs0[i].filterType;
      ds := ds + [fs0[i].(url := Some(Reverse(linkName, base[SHOW := last.value])))];
      i := i + 1;
    }
    LinkedMenu(acl, linkName, params0, fs0, ds);
    fs := ds[1..];
  }

  /** The loop of `current`: the first menu entry whose type is `show`. */
  method FindCurrent(ds: seq<FilterEntry>, show: Option<string>) returns (c: Option<FilterEntry>)
    ensures var k := CurrentIndex(ds, show);
      c == if k.Some? then Some(ds[k.value]) else None
  {
    var i := 0;
    while i < |ds|
      invariant 0 <= i <= |ds|
      invariant forall j | 0 <= j < i :: !HasType(show)(ds[j])
    {
      if ds[i].filterType == show {
        return Some(ds[i]);
      }
      i := i + 1;
    }
    return None;
  }

  /** The loop of `choices` for a truthy `show`: every entry of another type,
      in menu order. */
  method OtherEntries(ds: seq<FilterEntry>, show: Option<string>) returns (choices: seq<FilterEntry>)
    ensures choices == Excluding(ds, show)
  {
    choices := [];
    var i := 0;
    while i < |ds|
      invariant 0 <= i <= |ds|
      invariant choices == Excluding(ds[..i], show)
    {
      assert ds[..i + 1] == ds[..i] + [ds[i]];
      Seqs.FilterAppend(ds[..i], ds[i], TypeDiffers(show));
      if ds[i].filterType != show {
        choices := choices + [ds[i]];
      }
      i := i + 1;
    }
    assert ds[..i] == ds;
  }

  // ---------------------------------------------------------------------
  // The stateful helper object

  class ForumFiltering {
    const forum: Forum
    const linkName: string
    var linkParams: map<string, string>
    var filters: seq<FilterEntry>
    var show: Slot<Option<string>>
    var dicts: Slot<seq<FilterEntry>>      // memo of get_filtering_dics
    var current: Slot<FilterEntry>         // memo of current

    ghost predicate Valid()
      reads this
    {
      && AllTyped(filters)
      && (show.Set? && show.value.Some? ==> Truthy(show.value) && show.value in TypesOf(filters))
      && (dicts.Set? ==> MenuShaped(dicts.value) && TypesOf(dicts.value[1..]) == TypesOf(filters))
      && (current.Set? ==> dicts.Set? && current.value in dicts.value)
    }

    /** The state `get_filtering_dics` leaves, given the memo, the link
        parameters and the filters before the call: all three untouched when
        the memo was set, otherwise the menu built from them memoised, the
        filters holding its entries and the link parameters as the build
        leaves them. */
    ghost predicate MenuAfter(d0: Slot<seq<FilterEntry>>, params0: map<string, string>, fs0: seq<FilterEntry>)
      reads this
    {
      if d0.Set? then dicts == d0 && linkParams == params0 && filters == fs0
      else
        && AllTyped(fs0)
        && dicts == Set(FilteringDicts(forum.acl, linkName, params0, fs0))
        && filters == dicts.value[1..]
        && linkParams == MenuLinkParams(params0, fs0)
    }

    /** Keeps a copy of the link parameters and computes the catalogue. */
    constructor (forum: Forum, linkName: string, linkParams: map<string, string>)
      ensures Valid()
      ensures this.forum == forum && this.linkName == linkName && this.linkParams == linkParams
      ensures filters == AvailableFilters(forum.acl, forum.labels)
      ensures show == Unset && dicts == Unset && current == Unset
    {
      this.forum := forum;
      this.linkName := linkName;
      this.linkParams := linkParams;
      var fs := GetAvailableFilters(forum);
      AvailableFiltersLayout(forum.acl, forum.labels);
      filters := fs;
      show := Unset;
      dicts := Unset;
      current := Unset;
    }

    /** `clean_kwargs`: validates `show` against the catalogue. */
    method CleanKwargs(kwargs: map<string, string>) returns (cleaned: map<string, string>)
      requires Valid()
      modifies this`show
      ensures Valid()
      ensures cleaned == CleanedKwargs(kwargs, TypesOf(filters))
      ensures show == ShowAfterClean(kwargs, TypesOf(filters), old(show))
    {
      var s := Get(kwargs, SHOW);
      cleaned := kwargs;
      if Truthy(s) {
        var available := TypesOf(filters);
        if s in available {
          show := Set(s);
        } else {
          cleaned := kwargs - {SHOW};
        }
      } else {
        show := Set(None);
      }
    }

    /** `create_dicts`: pops `show` from the link parameters, then for each
        filter sets `show` to its type and stores the resulting URL in the
        filter itself, which the menu shares. */
    method CreateDicts() returns (ds: seq<FilterEntry>)
      requires Valid()
      modifies this`linkParams, this`filters
      ensures Valid()
      ensures ds == FilteringDicts(forum.acl, linkName, old(linkParams), old(filters))
      ensures filters == ds[1..]
      ensures TypesOf(filters) == TypesOf(old(filters))
      ensures linkParams == MenuLinkParams(old(linkParams), old(filters))
    {
      var menu, fs, last := BuildMenu(forum.acl, linkName, linkParams, filters);
      ds := menu;
      linkParams := if last.None? then linkParams - {SHOW} else (linkParams - {SHOW})[SHOW := last.value];
      filters := fs;
    }

    /** `get_filtering_dics`: builds the menu once and then returns the memo. */
    method GetFilteringDicts() returns (ds: seq<FilterEntry>)
      requires Valid()
      modifies this`dicts, this`linkParams, this`filters
      ensures Valid()
      ensures dicts == Set(ds) && MenuShaped(ds)
      ensures MenuAfter(old(dicts), old(linkParams), old(filters))
      ensures TypesOf(filters) == TypesOf(old(filters))
    {
      if dicts.Set? {
        ds := dicts.value;
      } else {
        FilteringDictsLayout(forum.acl, linkName, linkParams, filters);
        ds := CreateDicts();
        dicts := Set(ds);
      }
    }

    /** `filter`: hands the selected filter to the thread query; reading an
        unassigned `show` fails. */
    method Filter(threads: Threads.ForumThreads) returns (r: Result<()>)
      modifies threads`filterBy
      ensures show.Unset? ==> r == Err(AttributeError(SHOW)) && threads.filterBy == old(threads.filterBy)
      ensures show.Set? ==> r.Ok? && threads.filterBy == Set(show.value)
    {
      if show.Unset? {
        return Err(AttributeError(SHOW));
      }
      threads.Filter(show.value);
      r := Ok(());
    }

    /** `is_active`: reading an unassigned `show` fails. */
    function IsActive(): (r: Result<bool>)
      reads this
      requires Valid()
      ensures r.Err? <==> show.Unset?
      ensures r.Ok? ==> (r.value <==> show.value.Some?)
    {
      if show.Unset? then Err(AttributeError(SHOW)) else Ok(Truthy(show.value))
    }

    /** `current`: the memo if there is one, else the first menu entry whose
        type is `show` (memoised when found); none is found only when no entry
        has that type. */
    method Current() returns (r: Result<Option<FilterEntry>>)
      requires Valid()
      modifies this`current, this`dicts, this`linkParams, this`filters
      ensures Valid()
      ensures show == old(show)
      ensures MenuAfter(old(dicts), old(linkParams), old(filters))
      ensures old(current).Set? ==> r == Ok(Some(old(current).value)) && current == old(current)
      ensures old(current).Unset? && show.Unset? ==> r == Err(AttributeError(SHOW)) && current == old(current)
      ensures old(current).Unset? && show.Set? ==>
        && dicts.Set?
        && var c := CurrentIndex(dicts.value, show.value);
        && r == Ok(if c.Some? then Some(dicts.value[c.value]) else None)
        && current == (if c.Some? then Set(dicts.value[c.value]) else Unset)
      ensures show.Set? ==> r.Ok? && r.value.Some?
    {
      if current.Set? {
        return Ok(Some(current.value));
      }
      var ds := GetFilteringDicts();
      if show.Unset? {
        return Err(AttributeError(SHOW));
      }
      var c := FindCurrent(ds, show.value);
      if show.value.Some? {
        // a truthy `show` is an available type, so some filter entry has it
        var j :| 0 <= j < |filters| && TypesOf(filters)[j] == show.value;
        assert HasType(show.value)(ds[j + 1]);
      } else {
        assert HasType(show.value)(ds[0]);
      }
      if c.Some? {
        current := Set(c.value);
      }
      r := Ok(c);
    }

    /** `choices`: the menu entries other than the active one, in order. */
    method Choices() returns (r: Result<seq<FilterEntry>>)
      requires Valid()
      modifies this`dicts, this`linkParams, this`filters
      ensures Valid()
      ensures show == old(show)
      ensures show.Unset? ==> r == Err(AttributeError(SHOW)) && dicts == old(dicts) && linkParams == old(linkParams) && filters == old(filters)
      ensures show.Set? ==> MenuAfter(old(dicts), old(linkParams), old(filters))
      ensures show.Set? ==> dicts.Set? && r == Ok(ChoicesOf(dicts.value, show.value))
    {
      if show.Unset? {
        return Err(AttributeError(SHOW));
      }
      var s := show.value;
      var ds := GetFilteringDicts();
      if Truthy(s) {
        var choices := OtherEntries(ds, s);
        r := Ok(choices);
      } else {
        r := Ok(ds[1..]);
      }
    }
  }
}
