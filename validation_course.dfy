/** `courseSchema` (src/lib/validations/course.ts). */
module CourseSchema {
  import opened Wrappers
  import opened Domain
  import opened Zod

  const TitleMessage: string := "Title must be at least 3 characters."
  const NotANumberMessage: string := "Price must be a number."
  const NotPositiveMessage: string := "Price must be a positive number."

  /** The raw form input. `price` is the value after `z.coerce.number()`; `None`
      stands for `NaN`, which an input that is not a number coerces to. */
  datatype CourseInput = CourseInput(title: string, description: Option<string>, price: Option<real>, image: Option<string>)

  /** What the schema asks of an input, stated directly. */
  predicate Acceptable(v: CourseInput, isUrl: string -> bool) {
    && |v.title| >= 3
    && v.price.Some? && v.price.value > 0.0
    && (v.image.None? || v.image.value == "" || isUrl(v.image.value))
  }

  function PriceIssues(price: Option<real>): (r: seq<Issue>)
    ensures r == [] <==> price.Some? && price.value > 0.0
  {
    if price.None? then [Issue("price", None, NotANumberMessage)]
    else if price.value <= 0.0 then [Issue("price", None, NotPositiveMessage)]
    else []
  }

  /** Every issue of the input, title first, then price, then image. */
  function Issues(v: CourseInput, isUrl: string -> bool): seq<Issue> {
    MinLength("title", v.title, 3, TitleMessage) + PriceIssues(v.price) + UrlOrEmpty("image", v.image, isUrl)
  }

  /** `courseSchema.safeParse`: the parsed values, or the issues. */
  function Validate(v: CourseInput, isUrl: string -> bool): (r: Result<CourseFormValues, seq<Issue>>)
    ensures r.Success? <==> Acceptable(v, isUrl)
    ensures r.Success? ==> r.value == CourseFormValues(v.title, v.description, v.price.value, v.image)
    ensures r.Failure? ==> r.error != [] && Fields(r.error) <= {"title", "price", "image"}
  {
    var issues := Issues(v, isUrl);
    if issues == [] then Success(CourseFormValues(v.title, v.description, v.price.value, v.image))
    else Failure(issues)
  }

  /** Each message is reported exactly when its rule is broken; the description
      is never checked. */
  lemma {:induction false} IssueMessages(v: CourseInput, isUrl: string -> bool)
    ensures var issues := Issues(v, isUrl);
      && (Issue("title", None, TitleMessage) in issues <==> |v.title| < 3)
      && (Issue("price", None, NotANumberMessage) in issues <==> v.price.None?)
      && (Issue("price", None, NotPositiveMessage) in issues <==> v.price.Some? && v.price.value <= 0.0)
      && (Issue("image", None, UrlMessage) in issues <==>
            v.image.Some? && v.image.value != "" && !isUrl(v.image.value))
      && "description" !in Fields(issues)
  {
    var t := MinLength("title", v.title, 3, TitleMessage);
    var p := PriceIssues(v.price);
    var m := UrlOrEmpty("image", v.image, isUrl);
    var issues := Issues(v, isUrl);
    assert issues == t + p + m;
    forall x | x in issues ensures x in t || x in p || x in m {
    }
    assert "description" !in Fields(issues) by {
      forall i | 0 <= i < |issues| ensures issues[i].field != "description" {
        assert issues[i] in issues;
      }
    }
  }

  /** The description is optional: it never decides acceptance. */
  lemma DescriptionIsOptional(v: CourseInput, d: Option<string>, isUrl: string -> bool)
    ensures Validate(v.(description := d), isUrl).Success? == Validate(v, isUrl).Success?
  {
  }
}
