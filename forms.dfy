/** The built-in validators of Angular's reactive forms, on a text control.
    Every validator except `required` lets an empty value through. */
module Forms {
  import opened Text

  /** `Validators.required`: the empty value fails. */
  predicate RequiredError(v: string) {
    v == ""
  }

  /** `Validators.pattern(re)`: a non-empty value that the expression does not
      match fails; `matches` is the outcome of `re.test(v)`. */
  predicate PatternError(v: string, matches: bool) {
    v != "" && !matches
  }

  /** `Validators.minLength(n)`: a non-empty value whose `length` (in UTF-16
      code units) is below `n` fails. */
  predicate MinLengthError(v: string, n: nat) {
    v != "" && Utf16Length(v) < n
  }

  /** `Validators.email`: a non-empty value that is not an address fails;
      `isAddress` is the outcome of Angular's address expression. */
  predicate EmailError(v: string, isAddress: bool) {
    v != "" && !isAddress
  }
}
