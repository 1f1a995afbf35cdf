/**
 * Vocabulary shared by the two forms of the onboarding flow: an optional
 * value, and the rule both forms apply to their error map when the user
 * edits a field.
 */
module Forms {

  datatype Option<+T> = None | Some(value: T)

  /** JavaScript truthiness of `errors[f]`: the key is present and its message is not ''. */
  predicate Shows<F>(errors: map<F, string>, f: F)
  {
    f in errors && errors[f] != ""
  }

  /**
   * The error map after the user edits field `f`: a shown error for `f` is
   * blanked to '' (the key stays), and nothing else is touched.
   */
  function ClearOnEdit<F>(errors: map<F, string>, f: F): (r: map<F, string>)
    ensures r.Keys == errors.Keys
    ensures !Shows(r, f)
    ensures forall g :: g in errors && g != f ==> r[g] == errors[g]
    ensures !Shows(errors, f) ==> r == errors
  {
    if Shows(errors, f) then errors[f := ""] else errors
  }
}
