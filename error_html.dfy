/**
 * The HTML list a failed registration reports its errors in: one
 * `<li>` item per error text, between `<ul>` and `</ul>`.
 */
module ErrorHtml {
  /** The `<li>` items of the error texts, in order. */
  function ErrorItems(errors: seq<string>): string
    decreases |errors|
  {
    if errors == [] then ""
    else ErrorItems(errors[..|errors| - 1]) + "<li>" + errors[|errors| - 1] + "</li>"
  }

  /** The HTML list registration failures are reported with. */
  function ErrorList(errors: seq<string>): string
  {
    "<ul>" + ErrorItems(errors) + "</ul>"
  }

  /** The items of two consecutive runs of errors are the two item runs, one after the other. */
  lemma {:induction false} ErrorItemsAppend(a: seq<string>, b: seq<string>)
    ensures ErrorItems(a + b) == ErrorItems(a) + ErrorItems(b)
    decreases |b|
  {
    if b == [] {
      assert a + b == a;
    } else {
      var n := |b| - 1;
      assert (a + b)[..|a + b| - 1] == a + b[..n];
      ErrorItemsAppend(a, b[..n]);
    }
  }

  /** A single error is one item. */
  lemma ErrorItemSingle(e: string)
    ensures ErrorItems([e]) == "<li>" + e + "</li>"
  {
    assert [e][..0] == [];
  }

  /** A run of errors cut around position `i`. */
  lemma SplitAt(errors: seq<string>, i: nat)
    requires i < |errors|
    ensures errors == (errors[..i] + [errors[i]]) + errors[i + 1..]
  {
  }

  /** Every error appears, once and in its place, as `<li>error</li>` between the items before and after it. */
  lemma ErrorItemAt(errors: seq<string>, i: nat)
    requires i < |errors|
    ensures ErrorItems(errors) == ErrorItems(errors[..i]) + "<li>" + errors[i] + "</li>" + ErrorItems(errors[i + 1..])
  {
    SplitAt(errors, i);
    ErrorItemsAppend(errors[..i] + [errors[i]], errors[i + 1..]);
    ErrorItemsAppend(errors[..i], [errors[i]]);
    ErrorItemSingle(errors[i]);
  }

  /** The `foreach` that concatenates one `<li>` per error between `<ul>` and `</ul>`. */
  method RenderErrors(errors: seq<string>) returns (html: string)
    ensures html == ErrorList(errors)
  {
    html := "<ul>";
    var i := 0;
    while i < |errors|
      invariant 0 <= i <= |errors|
      invariant html == "<ul>" + ErrorItems(errors[..i])
    {
      assert errors[..i + 1][..i] == errors[..i];
      html := html + "<li>" + errors[i] + "</li>";
      i := i + 1;
    }
    assert errors[..|errors|] == errors;
    html := html + "</ul>";
  }
}
