/**
 * The bookkeeping of the main window in app.py: the check run on every number typed into an
 * entry field (`validate_input`), and the warning frame's dictionary of labels, which
 * `add_label` fills and `remove_label` clears by message code.
 */
module App {
  import opened Wrappers
  import opened Numerals

  /**
   * `validate_input(text, _min, _max)`: an empty field is accepted (the user is still typing);
   * a string of digits is accepted when its value lies within `_min..._max`; anything else, a
   * sign or a decimal point included, is refused.
   */
  function ValidateInput(text: string, min: int, max: int): (ok: bool)
    ensures ok ==> text == "" || AllDigits(text)
  {
    if text == "" then true
    else if AllDigits(text) then min <= ParseNat(text) <= max
    else false
  }

  /** `validate_input` with its defaults, 1 and 1000. */
  function ValidateDefault(text: string): bool
  {
    ValidateInput(text, 1, 1000)
  }

  /** The decimal numeral of a count is accepted exactly when the count lies in the range. */
  lemma NumeralAccepted(n: nat, min: int, max: int)
    ensures ValidateInput(NatToString(n), min, max) <==> min <= n <= max
  {
    ParseNatToString(n);
  }

  /** A negative number, written with its sign, is always refused. */
  lemma NegativeRefused(n: int, min: int, max: int)
    requires n < 0
    ensures !ValidateInput(IntToString(n), min, max)
  {
    IntToStringRoundTrip(n);
    assert !IsDigit(IntToString(n)[0]);
  }

  /** The defaults at work: empty text, the bounds, one past them, a sign and a decimal point. */
  lemma DefaultExamples()
    ensures ValidateDefault("")
    ensures ValidateDefault("1") && ValidateDefault("1000") && ValidateDefault("007")
    ensures !ValidateDefault("0") && !ValidateDefault("1001")
    ensures !ValidateDefault("-5") && !ValidateDefault("1.5")
  {
    assert !IsDigit('-') && !IsDigit('.');
    assert "-5"[0] == '-' && "1.5"[1] == '.';
    assert ParseNat("1") == 1 && ParseNat("0") == 0;
    assert "10"[..1] == "1" && ParseNat("10") == 10;
    assert "100"[..2] == "10" && ParseNat("100") == 100;
    assert "1000"[..3] == "100" && ParseNat("1000") == 1000;
    assert "1001"[..3] == "100" && ParseNat("1001") == 1001;
    assert "00"[..1] == "0" && "007"[..2] == "00" && ParseNat("007") == 7;
  }

  /** The texts of `message_description`, by code. */
  const Messages: map<int, string> := map[
    0 := "The number of samples is okey",
    1 := "CSV file cannot be generated.\nPlease check the 'CONFIRM' checkbox at the bottom of the right side pane --->",
    2 := "The imported excel file is not supported or is incorrect.",
    3 := "CSV files could not be generated.\nCheck that all the options in the right column are correct.",
    4 := "Please import an EXCEL file before generating CSV files...",
    5 := "Excel file imported correctly.",
    6 := "Choose a method before importing Excel."]

  /** `auto_disappear`: the codes whose labels are destroyed after eight seconds. */
  const AutoDisappear: set<int> := {1, 2, 3, 4, 5, 6}

  /** A label of the warning frame: what it shows, its colour, its code and whether a timer will destroy it. */
  datatype Label = Label(text: string, color: Option<string>, code: int, timed: bool)

  /** The text of a new label: the custom message when one is given, else the code's message. */
  function LabelText(code: int, custom: Option<string>): (r: Result<string>)
    ensures custom.Some? ==> r == Ok(custom.value)
    ensures custom.None? && code in Messages ==> r == Ok(Messages[code])
    ensures r.Err? <==> custom.None? && code !in Messages
    ensures r.Err? ==> r.error == KeyError
  {
    if custom.Some? then Ok(custom.value)
    else if code in Messages then Ok(Messages[code])
    else Err(KeyError)
  }

  /** The colour for the label's type: orange, red or green; any other type keeps the default. */
  function ColorOf(kind: string): (c: Option<string>)
    ensures c.None? <==> kind !in ["warning", "error", "info"]
  {
    if kind == "warning" then Some("orange")
    else if kind == "error" then Some("red")
    else if kind == "info" then Some("green")
    else None
  }

  /** The labels of `m` whose code is not `code`. */
  function Without(m: map<nat, Label>, code: int): (r: map<nat, Label>)
    ensures forall id :: id in r <==> id in m && m[id].code != code
    ensures forall id :: id in r ==> r[id] == m[id]
  {
    map id | id in m && m[id].code != code :: m[id]
  }

  /** Removing a code after adding a fresh label with that code gives back the labels before, minus that code. */
  lemma RemoveUndoesAdd(m: map<nat, Label>, id: nat, l: Label)
    requires id !in m
    ensures Without(m[id := l], l.code) == Without(m, l.code)
  {
    assert Without(m[id := l], l.code).Keys == Without(m, l.code).Keys;
  }

  /** Removing a code twice is removing it once; removing two codes is order-independent. */
  lemma WithoutCommutes(m: map<nat, Label>, c: int, d: int)
    ensures Without(Without(m, c), c) == Without(m, c)
    ensures Without(Without(m, c), d) == Without(Without(m, d), c)
  {
    assert Without(Without(m, c), c).Keys == Without(m, c).Keys;
    assert Without(Without(m, c), d).Keys == Without(Without(m, d), c).Keys;
  }

  /** The warning frame: `warning_labels`, each label widget mapped to its code, widgets named by number. */
  class WarningFrame {
    var labels: map<nat, Label>
    var next: nat

    /** Every label was made by this frame: its number lies below the next one. */
    predicate Valid()
      reads this
    {
      forall id :: id in labels ==> id < next
    }

    constructor ()
      ensures labels == map[] && Valid()
    {
      labels := map[];
      next := 0;
    }

    /**
     * `add_label(code, type, custom_message)`: a new label, with the custom message or the
     * code's text, the type's colour and a timer when the code is one that disappears. Without a
     * custom message, an unknown code raises KeyError and nothing is added.
     */
    method AddLabel(code: int, kind: string, custom: Option<string>) returns (r: Result<nat>)
      requires Valid()
      modifies this
      ensures Valid()
      ensures r.Err? <==> LabelText(code, custom).Err?
      ensures r.Err? ==> r.error == KeyError && labels == old(labels)
      ensures r.Ok? ==> r.value !in old(labels)
      ensures r.Ok? ==> labels == old(labels)[r.value := Label(LabelText(code, custom).value, ColorOf(kind), code, code in AutoDisappear)]
    {
      var text := LabelText(code, custom);
      if text.Err? {
        return Err(text.error);
      }
      var id := next;
      next := next + 1;
      labels := labels[id := Label(text.value, ColorOf(kind), code, code in AutoDisappear)];
      r := Ok(id);
    }

    /** `remove_label(code)`: every label with that code goes, every other label stays. */
    method RemoveLabel(code: int)
      requires Valid()
      modifies this
      ensures Valid()
      ensures labels == Without(old(labels), code)
    {
      if labels == map[] {
        assert Without(labels, code) == labels;
        return;
      }
      var positions := set id | id in labels && labels[id].code == code;
      while positions != {}
        invariant Valid()
        invariant forall id :: id in positions ==> id in old(labels) && old(labels)[id].code == code
        invariant forall id :: id in labels <==> id in old(labels) && (old(labels)[id].code != code || id in positions)
        invariant forall id :: id in labels ==> labels[id] == old(labels)[id]
        decreases positions
      {
        var id :| id in positions;
        labels := labels - {id};
        positions := positions - {id};
      }
      assert labels.Keys == Without(old(labels), code).Keys;
    }
  }
}
