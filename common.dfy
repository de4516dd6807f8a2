/** Values shared by the filtering, thread-listing and view models. */
module Common {

  /** The filter types the listing knows by name; the URL parameter that
      selects one is `show`. */
  const SHOW := "show"
  const MY_THREADS := "my-threads"
  const REPORTED := "reported"
  const MODERATED_THREADS := "moderated-threads"
  const MODERATED_POSTS := "moderated-posts"

  datatype Option<+T> = None | Some(value: T)

  /** The exceptions the modelled code can raise, as values. */
  datatype Error =
    | AttributeError(attribute: string)   // an instance attribute read before it was assigned
    | IndexError                          // `s[0]` on an empty string
    | FieldError(field: string)           // `order_by` on a column the thread table lacks
    | NameError(name: string)             // a bare name that is not defined in scope

  datatype Result<+T> = Ok(value: T) | Err(error: Error)

  /** A Python instance attribute: `Unset` until the first assignment. */
  datatype Slot<+T> = Unset | Set(value: T)

  /** The forum's permission flags that the listing consults (`forum.acl[...]`). */
  datatype Acl = Acl(
    canSeeAllThreads: bool,
    canSeeReports: bool,
    canReviewModeratedContent: bool,
    canSeeOwnThreads: bool)

  datatype Label = Label(pk: int, slug: string, name: string, cssClass: string)

  /** A forum with the fields the views read: its ACL, its labels in display
      order, and its nested-set bounds. */
  datatype Forum = Forum(id: int, acl: Acl, labels: seq<Label>, lft: int, rght: int)

  /** Python truthiness of an optional string: None and "" are false. */
  predicate Truthy(s: Option<string>)
  {
    s.Some? && s.value != ""
  }

  /** `d.get(key)` on a dict of strings. */
  function Get(m: map<string, string>, key: string): (r: Option<string>)
    ensures r.Some? <==> key in m
    ensures r.Some? ==> r.value == m[key]
  {
    if key in m then Some(m[key]) else None
  }
}
