/** The chat notification announcing a new lead (`tg_message`): a fixed
    header, then one bold-labelled line per field that has a value, in a
    fixed order. Values are inserted verbatim, without HTML escaping. */
module Notification {
  import opened Wrappers
  import opened Lead
  import opened Hashtags

  /** A labelled notification field; `value` as the handler holds it. */
  datatype Field = Field(title: string, value: Option<string>)

  const Header := "<b>Thông tin Lead mới #PUSHLEAD:</b>\n\n"

  /** The labels of the notification fields, in the order they are shown. */
  const Labels: seq<string> := [
    "Họ tên", "Điện thoại", "Email", "Công ty", "Salesman",
    "SP sẽ chào", "Ghi chú", "Facebook", "Trang web", "Nguồn Lead"
  ]

  /** `fields_order`: each label paired with its form value; the product
      interest is shown through the hashtag table. */
  function Fields(form: LeadForm): (fs: seq<Field>)
    ensures |fs| == |Labels|
    ensures forall i :: 0 <= i < |fs| ==> fs[i].title == Labels[i]
  {
    [ Field("Họ tên", Some(form.fullName)),
      Field("Điện thoại", Some(form.mobile)),
      Field("Email", form.email),
      Field("Công ty", form.company),
      Field("Salesman", form.salesman),
      Field("SP sẽ chào", ProductDisplay(form.productInterest)),
      Field("Ghi chú", form.description),
      Field("Facebook", form.facebook),
      Field("Trang web", form.url),
      Field("Nguồn Lead", form.leadSource) ]
  }

  predicate Shown(f: Field) {
    Truthy(f.value)
  }

  /** `<b>{label}:</b> {value}` and a line break. */
  function Line(f: Field): string
    requires Shown(f)
  {
    "<b>" + f.title + ":</b> " + f.value.value + "\n"
  }

  predicate AllShown(ps: seq<Field>) {
    forall i :: 0 <= i < |ps| ==> Shown(ps[i])
  }

  /** The fields that get a line, in their original order. */
  function Present(fs: seq<Field>): (ps: seq<Field>)
    ensures AllShown(ps)
    ensures |ps| <= |fs|
  {
    if fs == [] then []
    else (if Shown(fs[0]) then [fs[0]] else []) + Present(fs[1..])
  }

  /** The lines of shown fields, one after another. */
  function Render(ps: seq<Field>): string
    requires AllShown(ps)
  {
    if ps == [] then "" else Line(ps[0]) + Render(ps[1..])
  }

  /** The complete notification text for a form. */
  function Message(form: LeadForm): (m: string)
    ensures Header <= m
  {
    Header + Render(Present(Fields(form)))
  }

  /** The handler's loop over `fields_order`, appending to the header a
      line for each field with a value; it produces the header followed
      by the rendering of the shown fields. */
  method BuildMessage(fields: seq<Field>) returns (m: string)
    ensures m == Header + Render(Present(fields))
  {
    m := Header;
    var i := 0;
    while i < |fields|
      invariant 0 <= i <= |fields|
      invariant m == Header + Render(Present(fields[..i]))
    {
      var f := fields[i];
      assert fields[..i + 1] == fields[..i] + [f];
      PresentAppend(fields[..i], [f]);
      RenderAppend(Present(fields[..i]), Present([f]));
      if Shown(f) {
        m := m + Line(f);
      }
      i := i + 1;
    }
    assert fields[..i] == fields;
  }

  // ---------------------------------------------------------------------
  // Lemmas

  /** Filtering is done piecewise, so the shown fields keep their order. */
  lemma {:induction false} PresentAppend(a: seq<Field>, b: seq<Field>)
    ensures Present(a + b) == Present(a) + Present(b)
    decreases |a|
  {
    if a == [] {
      assert a + b == b;
    } else {
      assert (a + b)[1..] == a[1..] + b;
      PresentAppend(a[1..], b);
    }
  }

  /** Rendering is done piecewise. */
  lemma {:induction false} RenderAppend(a: seq<Field>, b: seq<Field>)
    requires AllShown(a) && AllShown(b)
    ensures AllShown(a + b)
    ensures Render(a + b) == Render(a) + Render(b)
    decreases |a|
  {
    if a == [] {
      assert a + b == b;
    } else {
      var ab := a + b;
      assert ab[0] == a[0];
      assert ab[1..] == a[1..] + b;
      RenderAppend(a[1..], b);
      assert Render(ab) == Line(a[0]) + Render(a[1..] + b);
      assert Render(a) == Line(a[0]) + Render(a[1..]);
    }
  }

  /** The filter keeps exactly the shown fields. */
  lemma {:induction false} PresentMembers(fs: seq<Field>)
    ensures forall f :: f in Present(fs) <==> f in fs && Shown(f)
  {
    if fs != [] {
      PresentMembers(fs[1..]);
      assert fs == [fs[0]] + fs[1..];
    }
  }

  /** The ten labels are pairwise different. */
  lemma LabelsDistinct()
    ensures forall i, j :: 0 <= i < j < |Labels| ==> Labels[i] != Labels[j]
  {
  }

  /** The line for a label appears exactly when the field under that
      label has a non-empty value. */
  lemma LabelShownIff(form: LeadForm, i: nat)
    requires i < |Labels|
    ensures (exists f :: f in Present(Fields(form)) && f.title == Labels[i])
        <==> Shown(Fields(form)[i])
  {
    var fs := Fields(form);
    LabelsDistinct();
    PresentMembers(fs);
    if exists f :: f in Present(fs) && f.title == Labels[i] {
      var f :| f in Present(fs) && f.title == Labels[i];
      var j :| 0 <= j < |fs| && fs[j] == f;
      assert j == i;
    } else {
      assert fs[i].title == Labels[i];
    }
  }

  /** The "SP sẽ chào" line appears exactly when a non-empty product
      interest was submitted, and then shows its hashtag text (or the
      value itself when the table does not know it). */
  lemma ProductLineIff(form: LeadForm)
    ensures (exists f :: f in Present(Fields(form)) && f.title == "SP sẽ chào")
        <==> Truthy(form.productInterest)
    ensures Truthy(form.productInterest) ==>
      Field("SP sẽ chào", ProductDisplay(form.productInterest)) in Present(Fields(form))
  {
    LabelShownIff(form, 5);
    FieldsStart(form);
    PresentMembers(Fields(form));
  }

  /** The value under each label is the form field of the same name;
      the product interest goes through the hashtag table. */
  lemma FieldValues(form: LeadForm)
    ensures Fields(form)[0] == Field("Họ tên", Some(form.fullName))
    ensures Fields(form)[1] == Field("Điện thoại", Some(form.mobile))
    ensures Fields(form)[2] == Field("Email", form.email)
    ensures Fields(form)[3] == Field("Công ty", form.company)
    ensures Fields(form)[4] == Field("Salesman", form.salesman)
    ensures Fields(form)[5] == Field("SP sẽ chào", ProductDisplay(form.productInterest))
    ensures Fields(form)[6] == Field("Ghi chú", form.description)
    ensures Fields(form)[7] == Field("Facebook", form.facebook)
    ensures Fields(form)[8] == Field("Trang web", form.url)
    ensures Fields(form)[9] == Field("Nguồn Lead", form.leadSource)
  {
  }

  /** The three clauses of `FieldValues` the message lemmas need: the
      first two fields carry the required values, the sixth the
      hashtag-translated product interest. Kept apart so that those
      proofs see only these facts. */
  lemma FieldsStart(form: LeadForm)
    ensures Fields(form)[0] == Field("Họ tên", Some(form.fullName))
    ensures Fields(form)[1] == Field("Điện thoại", Some(form.mobile))
    ensures Fields(form)[5] == Field("SP sẽ chào", ProductDisplay(form.productInterest))
  {
    FieldValues(form);
  }

  /** A shown field at the front is kept, and rendered first. */
  lemma PresentShownCons(fs: seq<Field>)
    requires |fs| >= 1 && Shown(fs[0])
    ensures Present(fs) == [fs[0]] + Present(fs[1..])
    ensures Render(Present(fs)) == Line(fs[0]) + Render(Present(fs[1..]))
  {
    var ps := [fs[0]] + Present(fs[1..]);
    assert ps[1..] == Present(fs[1..]);
  }

  /** Two shown fields at the front become the first two lines. */
  lemma RenderTwoShown(fs: seq<Field>)
    requires |fs| >= 2 && Shown(fs[0]) && Shown(fs[1])
    ensures Render(Present(fs)) == Line(fs[0]) + Line(fs[1]) + Render(Present(fs[2..]))
  {
    var tail := fs[1..];
    assert tail[1..] == fs[2..];
    assert tail[0] == fs[1];
    var l0, l1, rest := Line(fs[0]), Line(fs[1]), Render(Present(fs[2..]));
    PresentShownCons(tail);
    assert Render(Present(tail)) == l1 + rest;
    PresentShownCons(fs);
    assert Render(Present(fs)) == l0 + (l1 + rest);
    assert l0 + (l1 + rest) == l0 + l1 + rest;
  }

  /** With the two required fields non-empty, the message begins with the
      header, the "Họ tên" line and the "Điện thoại" line. */
  lemma MessageStartsWithRequiredLines(form: LeadForm)
    requires form.fullName != "" && form.mobile != ""
    ensures Header + Line(Field("Họ tên", Some(form.fullName)))
                   + Line(Field("Điện thoại", Some(form.mobile))) <= Message(form)
  {
    var fs := Fields(form);
    FieldsStart(form);
    RenderTwoShown(fs);
    var l0, l1, rest := Line(fs[0]), Line(fs[1]), Render(Present(fs[2..]));
    assert Message(form) == Header + (l0 + l1 + rest);
    assert Header + (l0 + l1 + rest) == (Header + l0 + l1) + rest;
  }

  /** No field of the list has a value. */
  lemma {:induction false} NoneShown(fs: seq<Field>)
    requires forall i :: 0 <= i < |fs| ==> !Shown(fs[i])
    ensures Present(fs) == []
  {
    if fs != [] {
      NoneShown(fs[1..]);
    }
  }

  /** A form with only the required fields gets exactly two lines. */
  lemma MessageRequiredOnly(form: LeadForm)
    requires form.fullName != "" && form.mobile != ""
    requires !Truthy(form.email) && !Truthy(form.company) && !Truthy(form.salesman)
    requires !Truthy(form.productInterest) && !Truthy(form.description)
    requires !Truthy(form.facebook) && !Truthy(form.url) && !Truthy(form.leadSource)
    ensures Message(form) == Header + Line(Field("Họ tên", Some(form.fullName)))
                                    + Line(Field("Điện thoại", Some(form.mobile)))
  {
    var fs := Fields(form);
    FieldsStart(form);
    RenderTwoShown(fs);
    NoneShown(fs[2..]);
    var l0, l1 := Line(fs[0]), Line(fs[1]);
    assert Render(Present(fs[2..])) == "";
    assert Message(form) == Header + (l0 + l1 + "");
    assert l0 + l1 + "" == l0 + l1;
  }

  /** The same message written out as text: the header, a blank line,
      then the bold "Họ tên" and "Điện thoại" lines with their values. */
  lemma MessageRequiredOnlyText(form: LeadForm)
    requires form.fullName != "" && form.mobile != ""
    requires !Truthy(form.email) && !Truthy(form.company) && !Truthy(form.salesman)
    requires !Truthy(form.productInterest) && !Truthy(form.description)
    requires !Truthy(form.facebook) && !Truthy(form.url) && !Truthy(form.leadSource)
    ensures Message(form) == "<b>Thông tin Lead mới #PUSHLEAD:</b>\n\n<b>Họ tên:</b> " + form.fullName
                             + "\n<b>Điện thoại:</b> " + form.mobile + "\n"
  {
    MessageRequiredOnly(form);
    var n, m := form.fullName, form.mobile;
    var p1, p2 := "<b>Họ tên:</b> ", "<b>Điện thoại:</b> ";
    LineText("Họ tên", n, p1);
    LineText("Điện thoại", m, p2);
    var a, b := "<b>Thông tin Lead mới #PUSHLEAD:</b>\n\n<b>Họ tên:</b> ", "\n<b>Điện thoại:</b> ";
    assert a == Header + p1;
    assert b == "\n" + p2;
    Regroup(Header, p1, n, p2, m);
  }

  /** A line is its label's bold prefix, the value and a line break. */
  lemma LineText(title: string, v: string, prefix: string)
    requires v != "" && prefix == "<b>" + title + ":</b> "
    ensures Line(Field(title, Some(v))) == prefix + v + "\n"
  {
  }

  /** Regrouping the concatenation of the header and two lines. */
  lemma Regroup(h: string, p1: string, n: string, p2: string, m: string)
    ensures h + (p1 + n + "\n") + (p2 + m + "\n") == (h + p1) + n + ("\n" + p2) + m + "\n"
  {
  }

  /** A form with every field non-empty gets all ten lines, in order. */
  lemma MessageAllFields(form: LeadForm)
    requires form.fullName != "" && form.mobile != ""
    requires Truthy(form.email) && Truthy(form.company) && Truthy(form.salesman)
    requires Truthy(form.productInterest) && Truthy(form.description)
    requires Truthy(form.facebook) && Truthy(form.url) && Truthy(form.leadSource)
    ensures Present(Fields(form)) == Fields(form)
    ensures |Present(Fields(form))| == 10
  {
    var fs := Fields(form);
    assert AllShown(fs);
    AllShownPresent(fs);
  }

  /** Filtering keeps a list all of whose fields are shown. */
  lemma {:induction false} AllShownPresent(fs: seq<Field>)
    requires AllShown(fs)
    ensures Present(fs) == fs
  {
    if fs != [] {
      AllShownPresent(fs[1..]);
    }
  }
}
