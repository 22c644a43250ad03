/** The add-transaction form: the fixed category list, the draft being edited,
    the submit guard, the payload handed to the page, and the reset that
    follows a completed submit. */
module ExpenseForm {
  import opened Sequences
  import opened Options
  import opened Records

  /** The category choices, in the order the selector lists them. */
  const Categories: seq<string> := [
    "Food & Dining",
    "Transportation",
    "Shopping",
    "Entertainment",
    "Bills & Utilities",
    "Healthcare",
    "Travel",
    "Education",
    "Salary",
    "Freelance",
    "Investment",
    "Rent & EMI",
    "Petrol & Fuel",
    "Grocery",
    "Other"
  ]

  /** Fifteen different labels, the last of which is the catch-all "Other". */
  lemma CategoriesShape()
    ensures |Categories| == 15 && Distinct(Categories)
    ensures Categories[|Categories| - 1] == "Other"
  {
  }

  /** The form's fields as the user typed them; `amount` is the raw text. */
  datatype Draft = Draft(amount: string, category: string, kind: TxType, date: string, description: string)

  /** The blank draft: type Expense, dated `today` (the current UTC date as
      `YYYY-MM-DD`), everything else empty. */
  function BlankDraft(today: string): (d: Draft)
    ensures d.amount == "" && d.category == "" && d.description == ""
    ensures d.kind == Expense && d.date == today
  {
    Draft("", "", Expense, today, "")
  }

  /** The guard: amount, category and description must all be non-empty. */
  predicate Submittable(d: Draft) {
    d.amount != "" && d.category != "" && d.description != ""
  }

  /** What the form hands to the page for insertion. */
  datatype Payload = Payload(amount: int, category: string, kind: TxType, date: string, description: string)

  /** The payload built from a draft, with `parsedAmount` the number its
      amount text parses to. */
  function PayloadOf(d: Draft, parsedAmount: int): (p: Payload)
    ensures p.category == d.category && p.kind == d.kind && p.date == d.date && p.description == d.description
    ensures p.amount == parsedAmount
  {
    Payload(parsedAmount, d.category, d.kind, d.date, d.description)
  }

  class Form {
    var draft: Draft
    var loading: bool

    /** The form as first shown on day `today`. */
    constructor(today: string)
      ensures draft == BlankDraft(today) && !loading
    {
      draft := BlankDraft(today);
      loading := false;
    }

    /** The submit handler up to the call into the page: with an empty
        required field nothing happens and nothing is sent; otherwise the
        form starts loading and sends the payload. `parsedAmount` is the
        parse of the amount text. */
    method Submit(parsedAmount: int) returns (sent: Option<Payload>)
      modifies this
      ensures draft == old(draft)
      ensures !Submittable(draft) ==> sent == None && loading == old(loading)
      ensures Submittable(draft) ==> sent == Some(PayloadOf(draft, parsedAmount)) && loading
    {
      if !Submittable(draft) {
        return None;
      }
      loading := true;
      sent := Some(PayloadOf(draft, parsedAmount));
    }

    /** The rest of the submit handler once the handler it was given
        settles: `completed` is false when that handler threw. The draft is
        reset to a blank one dated `today` only on completion; loading ends
        either way. The dashboard page's handler catches its own errors, so
        with that page `completed` is always true and the draft is reset even
        after a failed insert. */
    method SubmitSettled(completed: bool, today: string)
      modifies this
      ensures !loading
      ensures draft == if completed then BlankDraft(today) else old(draft)
    {
      if completed {
        draft := BlankDraft(today);
      }
      loading := false;
    }
  }
}
