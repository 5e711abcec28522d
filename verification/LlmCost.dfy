/** The cost estimate of one model call (llm-cost.util.ts) and the monthly
    total the worker accumulates from it. */
module LlmCost {
  import opened Wrappers
  import opened Strings

  /** Cents per million input and output tokens. */
  datatype Pricing = Pricing(input: nat, output: nat)

  datatype Entry = Entry(prefix: string, pricing: Pricing)

  const PRICING_TABLE: seq<Entry> := [
    Entry("gpt-4o-mini", Pricing(15, 60)),
    Entry("gpt-4o", Pricing(500, 1500)),
    Entry("gpt-4-turbo", Pricing(1000, 3000)),
    Entry("gpt-4-32k", Pricing(6000, 12000)),
    Entry("gpt-4", Pricing(3000, 6000)),
    Entry("gpt-3.5-turbo", Pricing(50, 150)),
    Entry("claude-3-5-sonnet", Pricing(300, 1500)),
    Entry("claude-3-5-haiku", Pricing(80, 400)),
    Entry("claude-3-opus", Pricing(1500, 7500)),
    Entry("claude-3-sonnet", Pricing(300, 1500)),
    Entry("claude-3-haiku", Pricing(25, 125))]

  function FirstMatch(table: seq<Entry>, model: string): Option<Entry> {
    if table == [] then None
    else if table[0].prefix <= model then Some(table[0])
    else FirstMatch(table[1..], model)
  }

  /** What a call costs exactly, in millionths of a cent. */
  function ExactCost(pricing: Pricing, promptTokens: nat, completionTokens: nat): nat {
    promptTokens * pricing.input + completionTokens * pricing.output
  }

  const MILLION := 1_000_000

  function CeilCents(exact: nat): (cents: nat)
    ensures cents * MILLION >= exact && (cents == 0 || (cents - 1) * MILLION < exact)
  {
    (exact + MILLION - 1) / MILLION
  }

  /** The provider is a parameter of the original that it never looks at. */
  function EstimateCostCents(provider: string, model: string, promptTokens: nat, completionTokens: nat): nat {
    if model == "" || (promptTokens == 0 && completionTokens == 0) then 0
    else
      match FirstMatch(PRICING_TABLE, Lower(model))
      case None => 0
      case Some(e) => CeilCents(ExactCost(e.pricing, promptTokens, completionTokens))
  }

  // ---------------------------------------------------------------------
  // The table is ordered well

  /** No entry is shadowed by a shorter prefix that stands before it. */
  predicate LongestFirst(table: seq<Entry>) {
    forall i, j :: 0 <= i < j < |table| ==> !(table[i].prefix <= table[j].prefix)
  }

  lemma TableIsOrdered()
    ensures LongestFirst(PRICING_TABLE)
  {
    forall i, j | 0 <= i < j < |PRICING_TABLE| ensures !(PRICING_TABLE[i].prefix <= PRICING_TABLE[j].prefix) {
      Unrelated(i, j);
    }
  }

  /** Two prefixes part at some place both have, or the later is shorter. */
  lemma Unrelated(i: nat, j: nat)
    requires i < j < |PRICING_TABLE|
    ensures !(PRICING_TABLE[i].prefix <= PRICING_TABLE[j].prefix)
  {
    var p, q := PRICING_TABLE[i].prefix, PRICING_TABLE[j].prefix;
    if |p| <= |q| {
      assert p[0] != q[0] || p[4] != q[4] || p[5] != q[5] || p[6] != q[6] || p[9] != q[9] || p[11] != q[11];
    }
  }

  lemma PrefixesNest(p: string, q: string, s: string)
    requires p <= s && q <= s
    ensures |p| <= |q| ==> p <= q
  {
    assert p == s[..|p|] && q == s[..|q|];
  }

  lemma {:induction false} FirstMatchIsLongest(table: seq<Entry>, model: string)
    requires LongestFirst(table)
    ensures FirstMatch(table, model).None? <==> forall e :: e in table ==> !(e.prefix <= model)
    ensures FirstMatch(table, model).Some? ==>
              var m := FirstMatch(table, model).value;
              m in table && m.prefix <= model && forall e :: e in table && e.prefix <= model ==>
                |e.prefix| <= |m.prefix|
  {
    if table != [] {
      var rest := table[1..];
      assert forall i, j :: 0 <= i < j < |rest| ==> rest[i] == table[i + 1] && rest[j] == table[j + 1];
      FirstMatchIsLongest(rest, model);
      if table[0].prefix <= model {
        forall e | e in table && e.prefix <= model ensures |e.prefix| <= |table[0].prefix| {
          var j :| 0 <= j < |table| && table[j] == e;
          PrefixesNest(table[0].prefix, e.prefix, model);
        }
      }
    }
  }

  /** For every model name the first matching prefix is the longest one. */
  lemma LongestPrefixPrices(model: string)
    ensures var m := FirstMatch(PRICING_TABLE, Lower(model));
            m.Some? ==> m.value in PRICING_TABLE && m.value.prefix <= Lower(model)
                        && forall e :: e in PRICING_TABLE && e.prefix <= Lower(model) ==> |e.prefix| <= |m.value.prefix|
  {
    TableIsOrdered();
    FirstMatchIsLongest(PRICING_TABLE, Lower(model));
  }

  /** A million prompt tokens cost the input price of the named model, and a
      million completion tokens its output price. */
  lemma PricesAsListed(provider: string, e: Entry)
    requires e in PRICING_TABLE
    ensures EstimateCostCents(provider, e.prefix, MILLION, 0) == e.pricing.input
    ensures EstimateCostCents(provider, e.prefix, 0, MILLION) == e.pricing.output
  {
    var i :| 0 <= i < |PRICING_TABLE| && PRICING_TABLE[i] == e;
    TableIsOrdered();
    NamesAreLower(i);
    FindsItself(PRICING_TABLE, i);
    WholeCents(e.pricing.input);
    WholeCents(e.pricing.output);
  }

  lemma NamesAreLower(i: nat)
    requires i < |PRICING_TABLE|
    ensures PRICING_TABLE[i].prefix != "" && Lower(PRICING_TABLE[i].prefix) == PRICING_TABLE[i].prefix
  {
  }

  lemma {:induction false} FindsItself(table: seq<Entry>, i: nat)
    requires LongestFirst(table) && i < |table|
    ensures FirstMatch(table, table[i].prefix) == Some(table[i])
  {
    if i > 0 {
      var rest := table[1..];
      assert forall i, j :: 0 <= i < j < |rest| ==> rest[i] == table[i + 1] && rest[j] == table[j + 1];
      assert rest[i - 1] == table[i];
      FindsItself(rest, i - 1);
    }
  }

  lemma WholeCents(cents: nat)
    ensures CeilCents(cents * MILLION) == cents && CeilCents(MILLION * cents) == cents
  {
  }

  /** The cents of a call are the least that cover its exact price. */
  lemma CoversThePrice(provider: string, model: string, p: nat, c: nat)
    requires model != "" && FirstMatch(PRICING_TABLE, Lower(model)).Some?
    ensures var price := FirstMatch(PRICING_TABLE, Lower(model)).value.pricing;
            var cents := EstimateCostCents(provider, model, p, c);
            && cents * MILLION >= p * price.input + c * price.output
            && (cents > 0 ==> (cents - 1) * MILLION < p * price.input + c * price.output)
  {
  }

  // ---------------------------------------------------------------------
  // Arithmetic of the estimate

  /** More tokens never cost less. */
  lemma CostMonotone(provider: string, model: string, p: nat, c: nat, p': nat, c': nat)
    requires p <= p' && c <= c'
    ensures EstimateCostCents(provider, model, p, c) <= EstimateCostCents(provider, model, p', c')
  {
    var m := FirstMatch(PRICING_TABLE, Lower(model));
    if m.Some? {
      var x, y := ExactCost(m.value.pricing, p, c), ExactCost(m.value.pricing, p', c');
      assert p * m.value.pricing.input <= p' * m.value.pricing.input;
      assert c * m.value.pricing.output <= c' * m.value.pricing.output;
      CeilMonotone(x, y);
    }
  }

  lemma CeilMonotone(x: nat, y: nat)
    requires x <= y
    ensures CeilCents(x) <= CeilCents(y)
  {
  }

  /** Splitting a call never makes it cheaper, and costs at most a cent. */
  lemma CostNeverUnderBills(provider: string, model: string, p: nat, c: nat, p': nat, c': nat)
    ensures var whole := EstimateCostCents(provider, model, p + p', c + c');
            var parts := EstimateCostCents(provider, model, p, c) + EstimateCostCents(provider, model, p', c');
            whole <= parts <= whole + 1
  {
    var m := FirstMatch(PRICING_TABLE, Lower(model));
    if m.Some? {
      var pr := m.value.pricing;
      var x, y := ExactCost(pr, p, c), ExactCost(pr, p', c');
      ExactCostAdds(pr, p, c, p', c');
      CeilAdds(x, y);
    }
  }

  lemma ExactCostAdds(pricing: Pricing, p: nat, c: nat, p': nat, c': nat)
    ensures ExactCost(pricing, p + p', c + c') == ExactCost(pricing, p, c) + ExactCost(pricing, p', c')
  {
    assert (p + p') * pricing.input == p * pricing.input + p' * pricing.input;
    assert (c + c') * pricing.output == c * pricing.output + c' * pricing.output;
  }

  lemma CeilAdds(x: nat, y: nat)
    ensures CeilCents(x + y) <= CeilCents(x) + CeilCents(y) <= CeilCents(x + y) + 1
  {
  }

  /** A self-hosted provider is billed like any other: the documented zero
      holds exactly when the model or the tokens already make it zero. */
  lemma ProviderIsIgnored(provider: string, other: string, model: string, p: nat, c: nat)
    ensures EstimateCostCents(provider, model, p, c) == EstimateCostCents(other, model, p, c)
    ensures EstimateCostCents("CUSTOM", model, p, c) == 0 <==>
            model == "" || (p == 0 && c == 0) || FirstMatch(PRICING_TABLE, Lower(model)).None?
  {
    var m := FirstMatch(PRICING_TABLE, Lower(model));
    if m.Some? {
      TableIsOrdered();
      FirstMatchIsLongest(PRICING_TABLE, Lower(model));
      PricesArePositive(m.value);
      ExactCostIsPositive(m.value.pricing, p, c);
    }
  }

  lemma PricesArePositive(e: Entry)
    requires e in PRICING_TABLE
    ensures e.pricing.input > 0 && e.pricing.output > 0
  {
  }

  lemma ExactCostIsPositive(pricing: Pricing, p: nat, c: nat)
    requires pricing.input > 0 && pricing.output > 0
    ensures ExactCost(pricing, p, c) == 0 <==> p == 0 && c == 0
  {
    assert p > 0 ==> p * pricing.input > 0;
    assert c > 0 ==> c * pricing.output > 0;
  }

  // ---------------------------------------------------------------------
  // The monthly total

  datatype Call = Call(promptTokens: nat, completionTokens: nat)

  /** The worker records a call only when it used tokens. */
  function MonthCents(provider: string, model: string, calls: seq<Call>): nat {
    if calls == [] then 0
    else
      var last := calls[|calls| - 1];
      MonthCents(provider, model, calls[..|calls| - 1])
      + if last.promptTokens + last.completionTokens > 0
        then EstimateCostCents(provider, model, last.promptTokens, last.completionTokens) else 0
  }

  function ExactTotal(pricing: Pricing, calls: seq<Call>): nat {
    if calls == [] then 0
    else ExactTotal(pricing, calls[..|calls| - 1])
         + ExactCost(pricing, calls[|calls| - 1].promptTokens, calls[|calls| - 1].completionTokens)
  }

  /** For a priced model the month's cents are at least the exact total and
      exceed it by less than one cent per call. */
  lemma {:induction false} MonthIsTight(provider: string, model: string, calls: seq<Call>)
    requires model != "" && FirstMatch(PRICING_TABLE, Lower(model)).Some?
    ensures var exact := ExactTotal(FirstMatch(PRICING_TABLE, Lower(model)).value.pricing, calls);
            var cents := MonthCents(provider, model, calls);
            exact <= cents * MILLION && (calls != [] ==> cents * MILLION < exact + |calls| * MILLION)
  {
    if calls != [] {
      MonthIsTight(provider, model, calls[..|calls| - 1]);
    }
  }
}
