/** Decoding a public lead form: one pass over the posted keys, in whatever order the map hands them out. */
module LeadForm {
  import opened Basics
  import opened Text

  datatype Slot =
    | SourceUrl | ChallengeToken | LeadSource | UtmSource | UtmMedium | UtmCampaign | UtmTerm | UtmContent

  /** A slot that was never sent is empty. */
  datatype Request = Request(text: map<Slot, string>, consentGranted: bool, values: map<string, string>)

  type Form = map<string, seq<string>>

  const EMPTY := Request(map[], false, map[])
  const CONSENT := "consentGranted"

  function SlotOf(key: string): Option<Slot> {
    if key == "sourceUrl" then Some(SourceUrl)
    else if key == "challengeToken" then Some(ChallengeToken)
    else if key == "leadSource" || key == "lead_source" then Some(LeadSource)
    else if key == "utmSource" || key == "utm_source" then Some(UtmSource)
    else if key == "utmMedium" || key == "utm_medium" then Some(UtmMedium)
    else if key == "utmCampaign" || key == "utm_campaign" then Some(UtmCampaign)
    else if key == "utmTerm" || key == "utm_term" then Some(UtmTerm)
    else if key == "utmContent" || key == "utm_content" then Some(UtmContent)
    else None
  }

  /** Which names fill which slot. */
  lemma NamesOfSlots(key: string)
    ensures SlotOf(key) == Some(SourceUrl) <==> key == "sourceUrl"
    ensures SlotOf(key) == Some(ChallengeToken) <==> key == "challengeToken"
    ensures SlotOf(key) == Some(LeadSource) <==> key in {"leadSource", "lead_source"}
    ensures SlotOf(key) == Some(UtmSource) <==> key in {"utmSource", "utm_source"}
    ensures SlotOf(key) == Some(UtmMedium) <==> key in {"utmMedium", "utm_medium"}
    ensures SlotOf(key) == Some(UtmCampaign) <==> key in {"utmCampaign", "utm_campaign"}
    ensures SlotOf(key) == Some(UtmTerm) <==> key in {"utmTerm", "utm_term"}
    ensures SlotOf(key) == Some(UtmContent) <==> key in {"utmContent", "utm_content"}
  {
  }

  predicate Grants(value: string) {
    EqualFold(TrimSpace(value), "true") || TrimSpace(value) == "1" || EqualFold(TrimSpace(value), "on")
  }

  function Assign(r: Request, key: string, value: string): Request {
    if key == CONSENT then r.(consentGranted := Grants(value))
    else
      match SlotOf(key)
      case Some(slot) => r.(text := r.text[slot := value])
      case None => r.(values := r.values[key := value])
  }

  function DecodeInOrder(form: Form, order: seq<string>): Request
    requires forall k :: k in order ==> k in form
  {
    if order == [] then EMPTY
    else
      var before, key := DecodeInOrder(form, order[..|order| - 1]), order[|order| - 1];
      if form[key] == [] then before else Assign(before, key, form[key][0])
  }

  /** An order in which the map may be walked: every key, once. */
  ghost predicate IsOrder(form: Form, order: seq<string>) {
    && (forall k :: k in order <==> k in form)
    && (forall i, j :: 0 <= i < j < |order| ==> order[i] != order[j])
  }

  method DecodeLeadCaptureSubmission(form: Form, order: seq<string>) returns (request: Request)
    requires IsOrder(form, order)
    ensures request == DecodeInOrder(form, order)
  {
    request := EMPTY;
    for i := 0 to |order|
      invariant request == DecodeInOrder(form, order[..i])
    {
      var key := order[i];
      assert order[..i + 1][..i] == order[..i];
      if form[key] == [] {
        continue;
      }
      var value := form[key][0];
      if key == CONSENT {
        request := request.(consentGranted := Grants(value));
      } else if SlotOf(key).Some? {
        request := request.(text := request.text[SlotOf(key).value := value]);
      } else {
        request := request.(values := request.values[key := value]);
      }
    }
    assert order[..|order|] == order;
  }

  // ---- What the result is, whatever the order ----

  predicate Sent(form: Form, key: string) {
    key in form && form[key] != []
  }

  predicate Reserved(key: string) {
    key == CONSENT || SlotOf(key).Some?
  }

  lemma ConsentIsGranted(value: string)
    ensures Grants(value) <==> ToLower(TrimSpace(value)) in {"true", "1", "on"}
  {
    var v := TrimSpace(value);
    assert ToLower("true") == "true" && ToLower("on") == "on" && ToLower("1") == "1";
    if ToLower(v) == "1" {
      assert |v| == 1 && Lower(v[0]) == ToLower(v)[0] == '1';
      assert v == [v[0]] == "1";
    }
  }

  lemma {:induction false} ValuesInOrder(form: Form, order: seq<string>)
    requires forall k :: k in order ==> k in form
    ensures var r := DecodeInOrder(form, order);
            && (forall key :: key in r.values <==> key in order && Sent(form, key) && !Reserved(key))
            && (forall key :: key in r.values ==> r.values[key] == form[key][0])
            && r.consentGranted == (CONSENT in order && Sent(form, CONSENT) && Grants(form[CONSENT][0]))
  {
    if order != [] {
      var n := |order| - 1;
      ValuesInOrder(form, order[..n]);
      assert SlotOf(CONSENT).None?;
      assert forall key :: key in order <==> key in order[..n] || key == order[n];
    }
  }

  /** The free values are exactly the non-empty keys that are not reserved, and consent is what was sent for it. */
  lemma ValuesAreTheRest(form: Form, order: seq<string>)
    requires forall k :: k in order ==> k in form
    ensures var r := DecodeInOrder(form, order);
            && (forall key :: key in r.values <==> key in order && Sent(form, key) && !Reserved(key))
            && (forall key :: key in r.values ==> r.values[key] == form[key][0])
            && r.consentGranted == ("consentGranted" in order && Sent(form, "consentGranted")
                                    && ToLower(TrimSpace(form["consentGranted"][0])) in {"true", "1", "on"})
  {
    ValuesInOrder(form, order);
    if Sent(form, CONSENT) {
      ConsentIsGranted(form[CONSENT][0]);
    }
  }

  /** A slot holds the value of the key of that slot that came last. */
  lemma {:induction false} SlotIsLast(form: Form, order: seq<string>, slot: Slot) returns (key: string)
    requires forall k :: k in order ==> k in form
    ensures slot in DecodeInOrder(form, order).text ==>
              key in order && Sent(form, key) && key != CONSENT && SlotOf(key) == Some(slot)
              && DecodeInOrder(form, order).text[slot] == form[key][0]
    ensures slot !in DecodeInOrder(form, order).text ==>
              forall k :: k in order && Sent(form, k) && k != CONSENT ==> SlotOf(k) != Some(slot)
  {
    key := "";
    if order != [] {
      var n := |order| - 1;
      key := SlotIsLast(form, order[..n], slot);
      if Sent(form, order[n]) && order[n] != CONSENT && SlotOf(order[n]) == Some(slot) {
        key := order[n];
      }
      assert forall k :: k in order <==> k in order[..n] || k == order[n];
    }
  }

  /** Two keys for the same slot, sent with different values. */
  predicate Clash(form: Form, a: string, b: string) {
    && Sent(form, a) && Sent(form, b) && a != CONSENT && b != CONSENT
    && SlotOf(a).Some? && SlotOf(a) == SlotOf(b) && form[a][0] != form[b][0]
  }

  lemma SameWithoutClash(form: Form, order: seq<string>, order': seq<string>)
    requires IsOrder(form, order) && IsOrder(form, order')
    requires forall a, b :: !Clash(form, a, b)
    ensures DecodeInOrder(form, order) == DecodeInOrder(form, order')
  {
    var r, r' := DecodeInOrder(form, order), DecodeInOrder(form, order');
    ValuesInOrder(form, order);
    ValuesInOrder(form, order');
    assert r.values == r'.values;
    forall slot ensures slot in r.text <==> slot in r'.text ensures slot in r.text ==> r.text[slot] == r'.text[slot] {
      var a := SlotIsLast(form, order, slot);
      var b := SlotIsLast(form, order', slot);
      assert !Clash(form, a, b);
    }
    assert r.text == r'.text;
  }

  lemma {:induction false} OrderOf(keys: set<string>) returns (order: seq<string>)
    ensures forall k :: k in order <==> k in keys
    ensures forall i, j :: 0 <= i < j < |order| ==> order[i] != order[j]
  {
    if keys == {} {
      order := [];
    } else {
      var k :| k in keys;
      var rest := OrderOf(keys - {k});
      order := [k] + rest;
    }
  }

  /** Walked with `last` at the end, the form gives `last`'s value to its slot. */
  lemma EndsWith(form: Form, last: string) returns (order: seq<string>)
    requires Sent(form, last) && last != CONSENT && SlotOf(last).Some?
    ensures IsOrder(form, order)
    ensures var text := DecodeInOrder(form, order).text;
            SlotOf(last).value in text && text[SlotOf(last).value] == form[last][0]
  {
    var front := OrderOf(form.Keys - {last});
    order := front + [last];
    assert order[..|order| - 1] == front;
  }

  /** The request does not depend on the order of the walk exactly when no two keys clash. */
  lemma OrderMattersExactly(form: Form)
    ensures (forall order, order' :: IsOrder(form, order) && IsOrder(form, order') ==>
               DecodeInOrder(form, order) == DecodeInOrder(form, order'))
       <==> forall a, b :: !Clash(form, a, b)
  {
    if a, b :| Clash(form, a, b) {
      var x := EndsWith(form, a);
      var y := EndsWith(form, b);
      assert DecodeInOrder(form, x) != DecodeInOrder(form, y);
    } else {
      forall order, order' | IsOrder(form, order) && IsOrder(form, order')
        ensures DecodeInOrder(form, order) == DecodeInOrder(form, order')
      {
        SameWithoutClash(form, order, order');
      }
    }
  }
}
