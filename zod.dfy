/** The few Zod checks the form schemas use, written out. Zod collects the issues of
    every field in declaration order; a field issue names the field and, inside an
    array, the element index. Zod's email and URL recognisers are library code and
    are taken as predicates supplied by the caller. */
module Zod {
  import opened Wrappers

  datatype Issue = Issue(field: string, index: Option<nat>, message: string)

  const UrlMessage: string := "Please enter a valid URL."

  /** `z.string().min(n, message)`. */
  function MinLength(field: string, s: string, n: nat, message: string): (r: seq<Issue>)
    ensures r == [] <==> |s| >= n
    ensures r != [] ==> r == [Issue(field, None, message)]
  {
    if |s| >= n then [] else [Issue(field, None, message)]
  }

  /** A check given by a recogniser: `z.string().email(...)`, `z.string().url(...)`. */
  function Recognised(field: string, s: string, accepts: string -> bool, message: string): (r: seq<Issue>)
    ensures r == [] <==> accepts(s)
    ensures r != [] ==> r == [Issue(field, None, message)]
  {
    if accepts(s) then [] else [Issue(field, None, message)]
  }

  /** `z.string().url(...).optional().or(z.literal(''))`: absent, empty or a URL.
      A non-empty string that is not a URL fails only the `url` refinement of the first
      alternative. Zod's union then reports that alternative's own issue. */
  function UrlOrEmpty(field: string, s: Option<string>, isUrl: string -> bool): (r: seq<Issue>)
    ensures r == [] <==> s.None? || s.value == "" || isUrl(s.value)
    ensures r != [] ==> r == [Issue(field, None, UrlMessage)]
  {
    if s.None? || s.value == "" || isUrl(s.value) then [] else [Issue(field, None, UrlMessage)]
  }

  /** The fields named by a list of issues. */
  function Fields(issues: seq<Issue>): set<string> {
    set i | 0 <= i < |issues| :: issues[i].field
  }
}
