/** `ForumView.dispatch`: the subforum test and the decision to redirect to
    the cleaned URL instead of rendering the listing. */
module View {

  import opened Common
  import opened Filtering

  const PAGE := "page"

  /** The number of forums nested below a forum in the nested-set tree. */
  function DescendantCount(forum: Forum): int
  {
    (forum.rght - forum.lft - 1) / 2
  }

  /** Subforums are listed only when the forum's nested-set interval is
      wider than a leaf's (`lft + 1 < rght`); for a well-formed interval that
      is exactly when it has descendants. */
  function HasSubforums(forum: Forum): (r: bool)
    ensures forum.lft < forum.rght && (forum.rght - forum.lft) % 2 == 1 ==>
      (r <==> DescendantCount(forum) > 0)
    ensures forum.rght == forum.lft + 1 ==> !r
  {
    forum.lft + 1 < forum.rght
  }

  /** What `dispatch` decides by the comparison of kwargs: a redirect to the
      cleaned URL kwargs; going on to the listing with its link parameters
      and the selected filter; or the error a step before the comparison
      raises. `Render` says only that the view gets past the comparison: the
      listing itself, and its failures, are `ForumThreads.List`'s. */
  datatype Response =
    | Redirect(kwargs: map<string, string>)
    | Render(linkParams: map<string, string>, show: Option<string>)
    | Failure(error: Error)

  /** `dispatch` after the forum is loaded. `kwargs` are the URL kwargs of the
      request; `preCleaned` is what the view's and the sorting helper's own
      cleaning (applied first) made of them once `page` was popped;
      `priorShow` is the filtering helper's `show` before its cleaning (Unset
      when the helper class gives it no default). The filtering helper then
      cleans `show`, `filter` reads it (failing while it is unassigned), and
      any difference from the popped kwargs redirects. */
  function Dispatch(kwargs: map<string, string>, preCleaned: map<string, string>, forum: Forum,
                    priorShow: Slot<Option<string>>): Response
  {
    var original := kwargs - {PAGE};
    var types := TypesOf(AvailableFilters(forum.acl, forum.labels));
    var cleaned := CleanedKwargs(preCleaned, types);
    var show := ShowAfterClean(preCleaned, types, priorShow);
    if show.Unset? then Failure(AttributeError(SHOW))
    else if cleaned != original then Redirect(cleaned)
    else Render(cleaned, show.value)
  }

  /** When the earlier cleaning steps accept the kwargs as they are, a truthy
      `show` that names no available filter is the only thing that stops the
      listing from rendering. With no prior `show`, reading it in `filter`
      fails; with one, the view redirects to the kwargs without `show` and
      nothing else changed. A page number never causes either. */
  lemma RedirectIffUnknownShow(kwargs: map<string, string>, forum: Forum, priorShow: Slot<Option<string>>)
    ensures var types := TypesOf(AvailableFilters(forum.acl, forum.labels));
      var show := Get(kwargs, SHOW);
      var unknown := Truthy(show) && show !in types;
      var r := Dispatch(kwargs, kwargs - {PAGE}, forum, priorShow);
      && (r.Failure? <==> unknown && priorShow.Unset?)
      && (r.Failure? ==> r.error == AttributeError(SHOW))
      && (r.Redirect? <==> unknown && priorShow.Set?)
      && (r.Redirect? ==> r.kwargs == kwargs - {PAGE} - {SHOW})
      && (r.Render? ==> r.linkParams == kwargs - {PAGE} && r.show == (if Truthy(show) then show else None))
  {
    var types := TypesOf(AvailableFilters(forum.acl, forum.labels));
    var original := kwargs - {PAGE};
    CleanChangesOnlyShow(original, types);
    assert Get(original, SHOW) == Get(kwargs, SHOW);
  }

  /** Following a redirect never redirects or fails again: if the earlier
      cleaning steps accept the redirect target, the next request renders. */
  lemma {:induction false} RedirectTargetRenders(kwargs: map<string, string>, preCleaned: map<string, string>,
                                                 forum: Forum, priorShow: Slot<Option<string>>)
    requires Dispatch(kwargs, preCleaned, forum, priorShow).Redirect?
    ensures var target := Dispatch(kwargs, preCleaned, forum, priorShow).kwargs;
      Dispatch(target, target - {PAGE}, forum, priorShow).Render?
  {
    var types := TypesOf(AvailableFilters(forum.acl, forum.labels));
    var target := CleanedKwargs(preCleaned, types);
    CleanIdempotent(preCleaned, types, priorShow);
    var again := target - {PAGE};
    assert Get(again, SHOW) == Get(target, SHOW);
    CleanChangesOnlyShow(again, types);
  }
}
