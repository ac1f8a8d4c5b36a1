/** The calculator form: four text fields the user types into, and the
    stored result that the "Calculate Commission" button refreshes.

    Field values are the raw text of the inputs; an empty text is a field
    left blank. Turning a field's text into a number is the browser's number
    parsing, which this model takes as a parameter `parse`. */
module Calculator {
  import opened FeeRule

  datatype Option<T> = None | Some(value: T)

  /** The whole state of the form at one moment. `agentFee` is `None` until
      a calculation has run. */
  datatype Form = Form(finalPurchasePrice: string, minimumAllowed: string,
                       constantAmount: string, ratio: string,
                       agentFee: Option<FeeResult>)

  /** The four fields hold the same text in both forms. */
  predicate SameInputs(a: Form, b: Form) {
    a.finalPurchasePrice == b.finalPurchasePrice && a.minimumAllowed == b.minimumAllowed &&
    a.constantAmount == b.constantAmount && a.ratio == b.ratio
  }

  /** Every field has been filled in: an empty text is the only falsy one. */
  predicate Filled(form: Form) {
    form.finalPurchasePrice != "" && form.minimumAllowed != "" &&
    form.constantAmount != "" && form.ratio != ""
  }

  /** The form after the user presses the button: with a field left blank
      nothing is calculated; otherwise the result is the commission rule
      applied to the parsed fields. */
  function Calculated(form: Form, parse: string -> real): (next: Form)
    // the fields the user typed are never touched
    ensures SameInputs(next, form)
    // a blank field leaves the previous result in place
    ensures !Filled(form) ==> next == form
    // a complete form always gets a result, and it is the rule's value on
    // the parsed fields, whatever was stored before
    ensures Filled(form) ==>
              next.agentFee == Some(CalculateAgentFee(parse(form.finalPurchasePrice),
                                                      parse(form.minimumAllowed),
                                                      parse(form.constantAmount),
                                                      parse(form.ratio)))
  {
    if !Filled(form) then
      form
    else
      form.(agentFee := Some(CalculateAgentFee(parse(form.finalPurchasePrice),
                                               parse(form.minimumAllowed),
                                               parse(form.constantAmount),
                                               parse(form.ratio))))
  }

  /** Pressing the button a second time changes nothing more. */
  lemma CalculateTwiceIsOnce(form: Form, parse: string -> real)
    ensures Calculated(Calculated(form, parse), parse) == Calculated(form, parse)
  {
  }

  /** On a complete form the outcome depends only on the four fields, never
      on what was shown before. */
  lemma ResultIgnoresPreviousFee(a: Form, b: Form, parse: string -> real)
    requires SameInputs(a, b) && Filled(a)
    ensures Calculated(a, parse) == Calculated(b, parse)
  {
  }

  /** The calculator component, holding the form's state and updating it in
      place. */
  class AgentFeeCalculator {
    var finalPurchasePrice: string
    var minimumAllowed: string
    var constantAmount: string
    var ratio: string
    var agentFee: Option<FeeResult>

    /** The current state as a value. */
    ghost function Snapshot(): Form
      reads this
    {
      Form(finalPurchasePrice, minimumAllowed, constantAmount, ratio, agentFee)
    }

    /** Every field starts blank and no result is shown. */
    constructor ()
      ensures Snapshot() == Form("", "", "", "", None)
    {
      finalPurchasePrice, minimumAllowed, constantAmount, ratio := "", "", "", "";
      agentFee := None;
    }

    /** The user edits the final purchase price. */
    method SetFinalPurchasePrice(text: string)
      modifies this`finalPurchasePrice
      ensures Snapshot() == old(Snapshot()).(finalPurchasePrice := text)
    {
      finalPurchasePrice := text;
    }

    /** The user edits the minimum sales price. */
    method SetMinimumAllowed(text: string)
      modifies this`minimumAllowed
      ensures Snapshot() == old(Snapshot()).(minimumAllowed := text)
    {
      minimumAllowed := text;
    }

    /** The user edits the fixed amount. */
    method SetConstantAmount(text: string)
      modifies this`constantAmount
      ensures Snapshot() == old(Snapshot()).(constantAmount := text)
    {
      constantAmount := text;
    }

    /** The user edits the progressive-scale ratio. */
    method SetRatio(text: string)
      modifies this`ratio
      ensures Snapshot() == old(Snapshot()).(ratio := text)
    {
      ratio := text;
    }

    /** The button's handler: refuses a form with a blank field (the user is
        alerted and nothing changes), otherwise stores the commission rule's
        result for the parsed fields. Only the stored result may change. */
    method CalculateFee(parse: string -> real)
      modifies this`agentFee
      ensures Snapshot() == Calculated(old(Snapshot()), parse)
      ensures !Filled(old(Snapshot())) ==> agentFee == old(agentFee)
      ensures Filled(old(Snapshot())) ==>
        agentFee == Some(CalculateAgentFee(parse(finalPurchasePrice), parse(minimumAllowed),
                                           parse(constantAmount), parse(ratio)))
    {
      if finalPurchasePrice == "" || minimumAllowed == "" || constantAmount == "" || ratio == "" {
        return;
      }
      var fee := CalculateAgentFee(parse(finalPurchasePrice), parse(minimumAllowed),
                                   parse(constantAmount), parse(ratio));
      agentFee := Some(fee);
    }
  }
}
