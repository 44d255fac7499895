/**
 * The site footer's link lists. Shop links all lead to the catalogue;
 * Company and Support routes are made from their labels by lower-casing
 * and replacing each run of white space by '-' (and, for Support, each
 * '&' by 'and'). The bottom bar has three hard-coded links of its own.
 */
module Footer {
  import opened Text

  const ShopLinks: seq<string> := ["All Products", "New Arrivals", "Best Sellers", "Special Offers"]
  const CompanyLinks: seq<string> := ["About Us", "Our Artisans", "Sustainability", "Careers"]
  const SupportLinks: seq<string> :=
    ["Contact Us", "FAQs", "Shipping & Returns", "Terms & Conditions", "Privacy Policy"]

  /** The hard-coded links of the bottom bar. */
  const BottomContact := "/contact"
  const BottomPrivacy := "/privacy-policy"
  const BottomTerms := "/terms-and-conditions"

  // ---------------------------------------------------- replace(/\s+/g, '-')

  /** Scans `s` left to right; `inRun` says the previous character was white
      space, already written out as the '-' of its run. */
  function HyphenateRun(s: string, inRun: bool): string {
    if s == [] then []
    else if IsWhitespace(s[0]) then (if inRun then [] else "-") + HyphenateRun(s[1..], true)
    else [s[0]] + HyphenateRun(s[1..], false)
  }

  /** `s.replace(/\s+/g, '-')`. */
  function Hyphenate(s: string): string {
    HyphenateRun(s, false)
  }

  /** No white space survives. */
  lemma {:induction false} HyphenateNoWhitespace(s: string, inRun: bool)
    ensures NoWhitespace(HyphenateRun(s, inRun))
  {
    if s != [] {
      HyphenateNoWhitespace(s[1..], IsWhitespace(s[0]));
    }
  }

  /** A whole run of white space becomes a single '-'. */
  lemma {:induction false} HyphenateSpaces(ws: string, rest: string, inRun: bool)
    requires ws != [] && AllWhitespace(ws)
    ensures HyphenateRun(ws + rest, inRun) == (if inRun then [] else "-") + HyphenateRun(rest, true)
  {
    var s := ws + rest;
    assert s[0] == ws[0] && s[1..] == ws[1..] + rest;
    if |ws| > 1 {
      var ws' := ws[1..];
      assert forall i :: 0 <= i < |ws'| ==> ws'[i] == ws[i + 1];
      HyphenateSpaces(ws', rest, true);
    } else {
      assert ws[1..] + rest == rest;
    }
  }

  /** A nonempty word without white space is copied as it is, and ends any run. */
  lemma {:induction false} HyphenateWord(w: string, rest: string, inRun: bool)
    requires w != [] && NoWhitespace(w)
    ensures HyphenateRun(w + rest, inRun) == w + HyphenateRun(rest, false)
  {
    var s := w + rest;
    assert s[0] == w[0] && s[1..] == w[1..] + rest;
    assert !IsWhitespace(w[0]);
    if |w| > 1 {
      var w' := w[1..];
      assert forall i :: 0 <= i < |w'| ==> w'[i] == w[i + 1];
      HyphenateWord(w', rest, false);
      assert [w[0]] + (w' + HyphenateRun(rest, false)) == ([w[0]] + w') + HyphenateRun(rest, false);
      assert [w[0]] + w' == w;
    } else {
      assert w[1..] + rest == rest;
      assert [w[0]] == w;
    }
  }

  /** A string without white space is its own slug. */
  lemma HyphenateFixes(w: string)
    requires NoWhitespace(w)
    ensures Hyphenate(w) == w
  {
    if w != [] {
      HyphenateWord(w, [], false);
      assert w + [] == w;
    }
  }

  /** The slug of `first last` is `first-last`. */
  lemma TwoWordSlug(first: string, last: string)
    requires first != [] && last != [] && NoWhitespace(first) && NoWhitespace(last)
    ensures Hyphenate(first + " " + last) == first + "-" + last
  {
    var tail := " " + last;
    assert first + " " + last == first + tail;
    HyphenateWord(first, tail, false);
    assert AllWhitespace(" ");
    HyphenateSpaces(" ", last, false);
    HyphenateFixes(last);
    HyphenateWord(last, [], true);
    assert last + [] == last;
    assert first + ("-" + last) == first + "-" + last;
  }

  /** The slug of `first & last` is `first-&-last`. */
  lemma AmpersandHyphens(first: string, last: string)
    requires first != [] && last != [] && NoWhitespace(first) && NoWhitespace(last)
    ensures Hyphenate(first + (" " + ("&" + (" " + last)))) == first + ("-" + ("&" + ("-" + last)))
  {
    var t1 := " " + last;
    var t2 := "&" + t1;
    var t3 := " " + t2;
    HyphenateWord(first, t3, false);
    assert AllWhitespace(" ");
    HyphenateSpaces(" ", t2, false);
    HyphenateWord("&", t1, true);
    HyphenateSpaces(" ", last, false);
    HyphenateWord(last, [], true);
    assert last + [] == last;
  }

  // ------------------------------------------------------- replace(/&/g, 'and')

  predicate NoAmp(s: string) {
    forall i :: 0 <= i < |s| ==> s[i] != '&'
  }

  /** `s.replace(/&/g, 'and')`. */
  function ReplaceAmp(s: string): string {
    if s == [] then []
    else (if s[0] == '&' then "and" else [s[0]]) + ReplaceAmp(s[1..])
  }

  /** No '&' survives, and no white space is introduced. */
  lemma {:induction false} ReplaceAmpClean(s: string)
    ensures NoAmp(ReplaceAmp(s))
    ensures NoWhitespace(s) ==> NoWhitespace(ReplaceAmp(s))
  {
    if s != [] {
      var s' := s[1..];
      assert forall i :: 0 <= i < |s'| ==> s'[i] == s[i + 1];
      ReplaceAmpClean(s');
    }
  }

  /** A string without '&' is left as it is. */
  lemma {:induction false} ReplaceAmpIdentity(s: string)
    requires NoAmp(s)
    ensures ReplaceAmp(s) == s
  {
    if s != [] {
      var s' := s[1..];
      assert forall i :: 0 <= i < |s'| ==> s'[i] == s[i + 1];
      ReplaceAmpIdentity(s');
      assert [s[0]] + s' == s;
    }
  }

  lemma {:induction false} ReplaceAmpAppend(a: string, b: string)
    ensures ReplaceAmp(a + b) == ReplaceAmp(a) + ReplaceAmp(b)
  {
    if a != [] {
      assert (a + b)[0] == a[0] && (a + b)[1..] == a[1..] + b;
      ReplaceAmpAppend(a[1..], b);
    } else {
      assert a + b == b;
    }
  }

  /** Replacing the '&' of `first-&-last`, neither part holding one. */
  lemma AmpersandWord(first: string, last: string)
    requires NoAmp(first) && NoAmp(last)
    ensures ReplaceAmp(first + ("-" + ("&" + ("-" + last)))) == first + ("-" + ("and" + ("-" + last)))
  {
    ReplaceAmpAppend(first, "-" + ("&" + ("-" + last)));
    ReplaceAmpAppend("-", "&" + ("-" + last));
    ReplaceAmpAppend("&", "-" + last);
    ReplaceAmpAppend("-", last);
    ReplaceAmpIdentity(first);
    ReplaceAmpIdentity(last);
    assert "&"[1..] == [] && "-"[1..] == [];
  }

  // ------------------------------------------------------------------ routes

  /** Every Shop link routes to the catalogue. */
  function ShopRoute(link: string): (r: string)
    ensures r == "/products"
  {
    "/products"
  }

  function CompanyRoute(link: string): (r: string)
    ensures |r| >= 1 && r[0] == '/'
  {
    "/" + Hyphenate(Lower(link))
  }

  function SupportRoute(link: string): (r: string)
    ensures |r| >= 1 && r[0] == '/'
  {
    "/" + ReplaceAmp(Hyphenate(Lower(link)))
  }

  /** After its leading '/' no generated route holds white space, and a
      Support route holds no '&'. */
  lemma RoutesAreClean(link: string)
    ensures NoWhitespace(CompanyRoute(link)[1..])
    ensures NoWhitespace(SupportRoute(link)[1..]) && NoAmp(SupportRoute(link))
  {
    var h := Hyphenate(Lower(link));
    HyphenateNoWhitespace(Lower(link), false);
    ReplaceAmpClean(h);
    assert CompanyRoute(link)[1..] == h;
    assert SupportRoute(link)[1..] == ReplaceAmp(h);
  }

  /** A Company route computed stage by stage. */
  lemma CompanyRouteSteps(link: string, lowered: string, hyphenated: string)
    requires Lower(link) == lowered && Hyphenate(lowered) == hyphenated
    ensures CompanyRoute(link) == "/" + hyphenated
  {
  }

  /** A Support route computed stage by stage. */
  lemma SupportRouteSteps(link: string, lowered: string, hyphenated: string, replaced: string)
    requires Lower(link) == lowered && Hyphenate(lowered) == hyphenated && ReplaceAmp(hyphenated) == replaced
    ensures SupportRoute(link) == "/" + replaced
  {
  }

  // ------------------------------------------------------- the concrete links

  lemma AboutLower()
    ensures Lower("About Us") == "about us"
  {
  }

  lemma AboutHyphens()
    ensures Hyphenate("about us") == "about-us"
  {
    TwoWordSlug("about", "us");
    assert "about" + " " + "us" == "about us";
    assert "about" + "-" + "us" == "about-us";
  }

  lemma AboutPrefixed()
    ensures "/" + "about-us" == "/about-us"
  {
  }

  /** 'About Us' routes to '/about-us'. */
  lemma AboutSlug()
    ensures CompanyRoute("About Us") == "/about-us"
  {
    AboutLower();
    AboutHyphens();
    CompanyRouteSteps("About Us", "about us", "about-us");
    AboutPrefixed();
  }

  lemma ShippingLower()
    ensures Lower("Shipping & Returns") == "shipping & returns"
  {
  }

  lemma ShippingSpaced()
    ensures "shipping" + (" " + ("&" + (" " + "returns"))) == "shipping & returns"
  {
  }

  lemma ShippingDashed()
    ensures "shipping" + ("-" + ("&" + ("-" + "returns"))) == "shipping-&-returns"
  {
  }

  lemma ShippingReplaced()
    ensures "shipping" + ("-" + ("and" + ("-" + "returns"))) == "shipping-and-returns"
  {
  }

  lemma ShippingHyphens()
    ensures Hyphenate("shipping & returns") == "shipping-&-returns"
  {
    AmpersandHyphens("shipping", "returns");
    ShippingSpaced();
    ShippingDashed();
  }

  lemma ShippingAmp()
    ensures ReplaceAmp("shipping-&-returns") == "shipping-and-returns"
  {
    AmpersandWord("shipping", "returns");
    ShippingDashed();
    ShippingReplaced();
  }

  lemma ShippingPrefixed()
    ensures "/" + "shipping-and-returns" == "/shipping-and-returns"
  {
  }

  /** 'Shipping & Returns' routes to '/shipping-and-returns'. */
  lemma ShippingSlug()
    ensures SupportRoute("Shipping & Returns") == "/shipping-and-returns"
  {
    ShippingLower();
    ShippingHyphens();
    ShippingAmp();
    SupportRouteSteps("Shipping & Returns", "shipping & returns", "shipping-&-returns", "shipping-and-returns");
    ShippingPrefixed();
  }

  lemma TermsLower()
    ensures Lower("Terms & Conditions") == "terms & conditions"
  {
  }

  lemma TermsSpaced()
    ensures "terms" + (" " + ("&" + (" " + "conditions"))) == "terms & conditions"
  {
  }

  lemma TermsDashed()
    ensures "terms" + ("-" + ("&" + ("-" + "conditions"))) == "terms-&-conditions"
  {
  }

  lemma TermsReplaced()
    ensures "terms" + ("-" + ("and" + ("-" + "conditions"))) == "terms-and-conditions"
  {
  }

  lemma TermsHyphens()
    ensures Hyphenate("terms & conditions") == "terms-&-conditions"
  {
    AmpersandHyphens("terms", "conditions");
    TermsSpaced();
    TermsDashed();
  }

  lemma TermsAmp()
    ensures ReplaceAmp("terms-&-conditions") == "terms-and-conditions"
  {
    AmpersandWord("terms", "conditions");
    TermsDashed();
    TermsReplaced();
  }

  lemma TermsPrefixed()
    ensures "/" + "terms-and-conditions" == "/terms-and-conditions"
  {
  }

  /** The generated Terms & Conditions route matches the bottom bar's link. */
  lemma TermsSlugMatchesBottomLink()
    ensures SupportRoute("Terms & Conditions") == BottomTerms
  {
    TermsLower();
    TermsHyphens();
    TermsAmp();
    SupportRouteSteps("Terms & Conditions", "terms & conditions", "terms-&-conditions", "terms-and-conditions");
    TermsPrefixed();
  }

  lemma PrivacyLower()
    ensures Lower("Privacy Policy") == "privacy policy"
  {
  }

  lemma PrivacyHyphens()
    ensures Hyphenate("privacy policy") == "privacy-policy"
  {
    TwoWordSlug("privacy", "policy");
    assert "privacy" + " " + "policy" == "privacy policy";
    assert "privacy" + "-" + "policy" == "privacy-policy";
  }

  lemma PrivacyPrefixed()
    ensures "/" + "privacy-policy" == "/privacy-policy"
  {
  }

  /** The generated Privacy Policy route matches the bottom bar's link. */
  lemma PrivacySlugMatchesBottomLink()
    ensures SupportRoute("Privacy Policy") == BottomPrivacy
  {
    PrivacyLower();
    PrivacyHyphens();
    ReplaceAmpIdentity("privacy-policy");
    SupportRouteSteps("Privacy Policy", "privacy policy", "privacy-policy", "privacy-policy");
    PrivacyPrefixed();
  }

  lemma ContactLower()
    ensures Lower("Contact Us") == "contact us"
  {
  }

  lemma ContactHyphens()
    ensures Hyphenate("contact us") == "contact-us"
  {
    TwoWordSlug("contact", "us");
    assert "contact" + " " + "us" == "contact us";
    assert "contact" + "-" + "us" == "contact-us";
  }

  lemma ContactPrefixed()
    ensures "/" + "contact-us" == "/contact-us"
  {
  }

  /** The generated Contact Us route is '/contact-us', but the bottom bar links to '/contact'. */
  lemma ContactSlugDiffersFromBottomLink()
    ensures SupportRoute("Contact Us") == "/contact-us" && SupportRoute("Contact Us") != BottomContact
  {
    ContactLower();
    ContactHyphens();
    ReplaceAmpIdentity("contact-us");
    SupportRouteSteps("Contact Us", "contact us", "contact-us", "contact-us");
    ContactPrefixed();
  }
}
