/** Worked examples of the calculator on concrete tasks, including the
    plain-substring behaviour of the keyword tables. */
module Scenarios {
  import opened Text
  import opened Types
  import opened Calculator
  import opened CalculatorProperties

  // System "custom dashboard": no hard-system penalty, but a custom build.

  /** Neither "bespoke" nor "custom software" is a substring of
      "custom dashboard". */
  lemma CustomDashboardIsNotBespoke()
    ensures !Contains("custom dashboard", "bespoke")
    ensures !Contains("custom dashboard", "custom software")
  {
    NotContainedWithoutChar("custom dashboard", "bespoke", 'e');
    NotContainedWithoutChar("custom dashboard", "custom software", 'f');
  }

  /** "custom dashboard" gets no hard-system penalty. */
  lemma CustomDashboardIsNotHard()
    ensures !ContainsAny("custom dashboard", HardSystemKeywords)
  {
    CustomDashboardIsNotBespoke();
    NotContainedWithoutChar("custom dashboard", "paper", 'p');
    NotContainedWithoutChar("custom dashboard", "filing", 'f');
  }

  /** "custom dashboard" names no mail or spreadsheet tool. */
  lemma CustomDashboardLacksOfficeTools()
    ensures !Contains("custom dashboard", "email")
    ensures !Contains("custom dashboard", "sheets")
  {
    NotContainedWithoutChar("custom dashboard", "email", 'e');
    NotContainedWithoutChar("custom dashboard", "sheets", 'e');
  }

  /** "custom dashboard" names no accounting or integration service. */
  lemma CustomDashboardLacksServices()
    ensures !Contains("custom dashboard", "xero")
    ensures !Contains("custom dashboard", "quickbooks")
    ensures !Contains("custom dashboard", "zapier")
  {
    NotContainedWithoutChar("custom dashboard", "xero", 'x');
    NotContainedWithoutChar("custom dashboard", "quickbooks", 'q');
    NotContainedWithoutChar("custom dashboard", "zapier", 'z');
  }

  /** "docs" and "crm" use only letters found in "custom dashboard", but
      each would have to straddle the space. */
  lemma CustomDashboardLacksDocsAndCrm()
    ensures !Contains("custom dashboard", "docs")
    ensures !Contains("custom dashboard", "crm")
  {
    NotStraddling("docs", 'd', 'c');
    NotStraddling("crm", 'r', 'c');
  }

  /** A pattern that has a character missing from "custom " and another
      missing from "dashboard", and no space, is not in "custom dashboard". */
  lemma NotStraddling(p: string, c1: char, c2: char)
    requires c1 in p && c1 !in "custom " && c2 in p && c2 !in "dashboard" && ' ' !in p
    ensures !Contains("custom dashboard", p)
  {
    NotContainedWithoutChar("custom ", p, c1);
    NotContainedWithoutChar("dashboard", p, c2);
    SplitAfterSeparator("custom ", "dashboard", p);
    assert "custom " + "dashboard" == "custom dashboard";
  }

  /** "custom dashboard" earns no simple-tool bonus and no simple-solution
      signal. */
  lemma CustomDashboardIsNotSimple()
    ensures !ContainsAny("custom dashboard", SimpleToolKeywords)
    ensures !ContainsAny("custom dashboard", SimpleSolutionKeywords)
  {
    CustomDashboardLacksOfficeTools();
    CustomDashboardLacksServices();
    CustomDashboardLacksDocsAndCrm();
    NotContainedWithoutChar("custom dashboard", "make", 'k');
    NotContainedWithoutChar("custom dashboard", "airtable", 'i');
  }

  /** Whatever the name, a system "custom dashboard" asks for a custom
      build through "custom". */
  lemma CustomDashboardIsCustom(name: string)
    ensures ContainsAny(name + " " + "custom dashboard", CustomSolutionKeywords)
  {
    var s := name + " " + "custom dashboard";
    var k := |name| + 1;
    assert s[k..k + 6] == "custom";
    assert OccursAt(s, CustomSolutionKeywords[0], k);
  }

  /** A counted task run on a "custom dashboard" (in any letter case) keeps
      the base score, plus 10 when it takes over 30 minutes, and counts
      once towards a custom build and never towards a simple one. */
  lemma CustomDashboardTask(t: Task)
    requires Counted(t) && Lower(t.system) == "custom dashboard"
    ensures Contribution(t).feasibility == if t.time > 30.0 then 60 else 50
    ensures Contribution(t).custom == 1
    ensures Contribution(t).simple == 0
  {
    CustomDashboardIsNotHard();
    CustomDashboardIsNotSimple();
    CustomDashboardIsCustom(Lower(t.name));
    CountedContribution(t);
  }

  /** The portal example, for any name: 45 minutes daily on a custom
      dashboard is 195 hours a year at feasibility 60 and calls for custom
      development; client experience can at most tie with time saving, so
      the goal stays the default. */
  lemma PortalScenario(t: Task, hourlyRate: real)
    requires Lower(t.system) == "custom dashboard" && t.time == 45.0 && t.frequency == Daily
    ensures Calculate([t], hourlyRate) == Results(195.0, 195.0 * hourlyRate, 60.0, TimeSavingGoal, CustomDevelopment)
  {
    CustomDashboardTask(t);
    ContributionBounds(t);
    SumSingleton(t);
    assert AnnualHours(45.0, Daily) == 195.0;
  }

  /** The page lower-cases the system, so "custom dashboard" may be typed
      in any case; in particular as is. */
  lemma CustomDashboardIsLowerCase()
    ensures Lower("custom dashboard") == "custom dashboard"
  {
    LowerOfLowerCase("custom dashboard");
  }

  /** The portal example as written, "Client onboarding portal" done daily
      for 45 minutes in "custom dashboard". */
  lemma PortalTask(id: string, hourlyRate: real)
    ensures Calculate([Task(id, "Client onboarding portal", "custom dashboard", 45.0, Daily)], hourlyRate)
            == Results(195.0, 195.0 * hourlyRate, 60.0, TimeSavingGoal, CustomDevelopment)
  {
    CustomDashboardIsLowerCase();
    PortalScenario(Task(id, "Client onboarding portal", "custom dashboard", 45.0, Daily), hourlyRate);
  }

  // The invoicing example.

  /** "Xero" lower-cases to "xero", which names a simple tool. */
  lemma XeroIsSimple()
    ensures Lower("Xero") == "xero"
    ensures ContainsAny("xero", SimpleToolKeywords)
    ensures ContainsAny("xero", SimpleSolutionKeywords)
  {
    assert OccursAt("xero", SimpleToolKeywords[3], 0);
    assert OccursAt("xero", SimpleSolutionKeywords[3], 0);
  }

  /** "xero" is none of the hard-to-automate systems. */
  lemma XeroIsNotHard()
    ensures !ContainsAny("xero", HardSystemKeywords)
  {
    NotContainedWithoutChar("xero", "bespoke", 'b');
    NotContainedWithoutChar("xero", "custom software", 'c');
    NotContainedWithoutChar("xero", "paper", 'p');
    NotContainedWithoutChar("xero", "filing", 'f');
  }

  /** Text without 'u', 'b', 'p' and 'w' holds none of the custom-build
      keywords that use one of those letters. */
  lemma NoCustomKeywordOfUbpw(s: string)
    requires 'u' !in s && 'b' !in s && 'p' !in s && 'w' !in s
    ensures !Contains(s, "custom") && !Contains(s, "bespoke") && !Contains(s, "portal")
    ensures !Contains(s, "wizard") && !Contains(s, "web app") && !Contains(s, "website")
    ensures !Contains(s, "wordpress")
  {
    NotContainedWithoutChar(s, "custom", 'u');
    NotContainedWithoutChar(s, "bespoke", 'b');
    NotContainedWithoutChar(s, "portal", 'p');
    NotContainedWithoutChar(s, "wizard", 'w');
    NotContainedWithoutChar(s, "web app", 'w');
    NotContainedWithoutChar(s, "website", 'w');
    NotContainedWithoutChar(s, "wordpress", 'w');
  }

  /** Text without 'u', 'b', 'p', 'w', 'd' and 'j' asks for no custom build. */
  lemma NoCustomSignal(s: string)
    requires 'u' !in s && 'b' !in s && 'p' !in s && 'w' !in s && 'd' !in s && 'j' !in s
    ensures !ContainsAny(s, CustomSolutionKeywords)
  {
    NoCustomKeywordOfUbpw(s);
    NotContainedWithoutChar(s, "dashboard", 'd');
    NotContainedWithoutChar(s, "next.js", 'j');
  }

  /** The lower-cased text of "Create invoices" done in "Xero", which the
      page builds as name, space, system, asks for no custom build. */
  lemma InvoiceTextIsNotCustom()
    ensures !ContainsAny("create invoices" + " " + "xero", CustomSolutionKeywords)
  {
    InvoiceNameLacksLetters("create invoices");
    NoCustomSignal("create invoices" + " " + "xero");
  }

  /** Letters absent from "create invoices". The literal is passed as a
      parameter so that the solver's reasoning about it stays cheap. */
  lemma InvoiceNameLacksLetters(name: string)
    requires name == "create invoices"
    ensures 'u' !in name && 'b' !in name && 'p' !in name && 'w' !in name && 'd' !in name && 'j' !in name
  {
  }

  /** The invoicing example, for any task of 30 minutes weekly whose system
      names a simple tool and no hard-to-automate one and whose text asks
      for no custom build, as "Create invoices" in "Xero" does
      (`XeroIsSimple`, `XeroIsNotHard`, `InvoiceTextIsNotCustom`): at 30 an hour it is 26 hours
      and 780 a year at feasibility 90 (30 minutes earns no bonus). The
      scalability signal ("invoice") can at most tie with time saving, so
      the goal stays the default, and the tool signal makes it a simple
      automation. */
  lemma InvoiceScenario(t: Task)
    requires t.time == 30.0 && t.frequency == Weekly
    requires ContainsAny(System(t), SimpleToolKeywords) && !ContainsAny(System(t), HardSystemKeywords)
    requires !ContainsAny(Description(t), CustomSolutionKeywords)
    ensures Calculate([t], 30.0) == Results(26.0, 780.0, 90.0, TimeSavingGoal, SimpleAutomation)
  {
    SimpleToolIsSimpleSolution(t);
    CountedContribution(t);
    ContributionBounds(t);
    SumSingleton(t);
    assert AnnualHours(30.0, Weekly) == 26.0;
  }

  /** "Create" lower-cases to "create". */
  lemma LowerCreate()
    ensures Lower("Create") == "create"
  {
    var s := "Create";
    LowerEach(s);
    forall i | 0 <= i < |s| ensures Lower(s)[i] == "create"[i] {
      assert Lower(s)[i] == LowerChar(s[i]);
    }
  }

  /** " invoices" has no capital to lower. */
  lemma LowerInvoices()
    ensures Lower(" invoices") == " invoices"
  {
    var s := " invoices";
    LowerEach(s);
    forall i | 0 <= i < |s| ensures Lower(s)[i] == s[i] {
      assert Lower(s)[i] == LowerChar(s[i]);
    }
  }

  /** The page lower-cases the name "Create invoices" to "create invoices". */
  lemma InvoiceNameLowered()
    ensures Lower("Create invoices") == "create invoices"
  {
    LowerCreate();
    LowerInvoices();
    InvoiceNameSplit();
    LowerJoin("Create", " invoices", "create", " invoices");
  }

  /** The two literal concatenations `InvoiceNameLowered` needs, in a lemma of
      their own so that the solver evaluates them apart from `Lower`. */
  lemma InvoiceNameSplit()
    ensures "Create" + " invoices" == "Create invoices"
    ensures "create" + " invoices" == "create invoices"
  {
  }

  /** The invoicing example as written: "Create invoices" in "Xero", 30
      minutes weekly, at 30 an hour. */
  lemma InvoiceTask(id: string)
    ensures Calculate([Task(id, "Create invoices", "Xero", 30.0, Weekly)], 30.0)
            == Results(26.0, 780.0, 90.0, TimeSavingGoal, SimpleAutomation)
  {
    var t := Task(id, "Create invoices", "Xero", 30.0, Weekly);
    XeroIsSimple();
    XeroIsNotHard();
    InvoiceNameLowered();
    InvoiceTextIsNotCustom();
    assert Description(t) == "create invoices" + " " + "xero";
    InvoiceScenario(t);
  }
}
