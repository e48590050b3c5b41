/**
 * The home screen of the client: the calorie total it shows, the BMR
 * calculator's state and its save, and the notes kept in their slot.
 */
module HomeScreen {
  import opened Wrappers
  import opened Json
  import opened LocalCache

  /** The calculator's inputs, as the text of the form fields. */
  datatype BmrForm = BmrForm(age: string, weight: string, height: string, gender: string)

  /** `!user?.bmr || user.bmr === 0` */
  predicate ShowCalculatorInitially(user: Option<Blob>) {
    !Truthy(UserField(user, "bmr")) || UserField(user, "bmr") == Some(JNum(0))
  }

  /** The calculator is shown first exactly when the user has no BMR, or a falsy one (0, "", null, false). */
  lemma ShowCalculatorIff(user: Option<Blob>)
    ensures ShowCalculatorInitially(user) <==>
      user.None? || "bmr" !in user.value || user.value["bmr"] in {JNull, JBool(false), JNum(0), JStr("")}
  {
  }

  /** `if (!age || !weight || !height) return;` */
  predicate BmrInputsMissing(f: BmrForm) {
    f.age == "" || f.weight == "" || f.height == ""
  }

  /** The stored user after a BMR save: the BMR and the four form fields set, every other key kept. */
  function WithBmrAndForm(stored: Blob, bmr: Json, f: BmrForm): (r: Blob)
    ensures r.Keys == stored.Keys + {"bmr", "age", "weight", "height", "gender"}
    ensures r["bmr"] == bmr && r["age"] == JStr(f.age) && r["weight"] == JStr(f.weight)
    ensures r["height"] == JStr(f.height) && r["gender"] == JStr(f.gender)
    ensures forall k :: k in stored && k !in {"bmr", "age", "weight", "height", "gender"} ==> r[k] == stored[k]
  {
    stored["bmr" := bmr]["age" := JStr(f.age)]["weight" := JStr(f.weight)]["height" := JStr(f.height)]["gender" := JStr(f.gender)]
  }

  class Home {
    var bmr: Json
    var totalCalories: Json
    var notes: string
    var showBmrCalculator: bool
    var formData: BmrForm

    constructor (user: Option<Blob>, ls: Storage)
      ensures bmr == Or(UserField(user, "bmr"), JNum(0))
      ensures totalCalories == JNum(0)
      ensures notes == ls.fitnessNotes.GetOr("")
      ensures showBmrCalculator == ShowCalculatorInitially(user)
      ensures formData == BmrForm("", "", "", "male")
    {
      bmr := Or(UserField(user, "bmr"), JNum(0));
      totalCalories := JNum(0);
      notes := ls.fitnessNotes.GetOr("");
      showBmrCalculator := ShowCalculatorInitially(user);
      formData := BmrForm("", "", "", "male");
    }

    /**
     * `fetchTotalCalories`: the server's total (a falsy one reads as 0) with
     * a real token and an ok answer, otherwise the local slot (0 when empty).
     * No slot is written.
     */
    method FetchTotalCalories(ls: Storage, reply: Reply<Option<Json>>) returns (requested: bool)
      modifies this`totalCalories
      ensures requested == IsRealToken(ls.token)
      ensures IsRealToken(ls.token) && reply.Ok? ==> totalCalories == Or(reply.data, JNum(0))
      ensures !(IsRealToken(ls.token) && reply.Ok?) ==> totalCalories == JNum(ls.LocalTotal())
    {
      requested := IsRealToken(ls.token);
      if requested && reply.Ok? {
        totalCalories := Or(reply.data, JNum(0));
        return;
      }
      totalCalories := JNum(ls.LocalTotal());
    }

    /**
     * `calculateBMR`: with any input empty nothing changes; otherwise the
     * BMR becomes the rounded formula value, given here as `rounded`.
     */
    method CalculateBmr(rounded: int)
      modifies this`bmr
      ensures BmrInputsMissing(formData) ==> bmr == old(bmr)
      ensures !BmrInputsMissing(formData) ==> bmr == JNum(rounded)
    {
      if BmrInputsMissing(formData) {
        return;
      }
      bmr := JNum(rounded);
    }

    /**
     * `saveBMR`: with a real token the BMR is sent, and an ok answer's BMR is
     * stored; every other path stores the calculator's BMR. Each path also
     * stores the form's age, weight, height and gender and hides the calculator.
     */
    method SaveBmr(ls: Storage, reply: Reply<Json>) returns (request: Option<Json>)
      modifies ls`user, this`showBmrCalculator
      ensures !showBmrCalculator
      ensures request == if IsRealToken(ls.token) then Some(bmr) else None
      ensures IsRealToken(ls.token) && reply.Ok? ==> ls.user == Some(WithBmrAndForm(old(ls.UserBlob()), reply.data, formData))
      ensures !(IsRealToken(ls.token) && reply.Ok?) ==> ls.user == Some(WithBmrAndForm(old(ls.UserBlob()), bmr, formData))
    {
      request := None;
      if IsRealToken(ls.token) {
        request := Some(bmr);
        if reply.Ok? {
          ls.user := Some(WithBmrAndForm(ls.UserBlob(), reply.data, formData));
          showBmrCalculator := false;
          return;
        }
      }
      ls.user := Some(WithBmrAndForm(ls.UserBlob(), bmr, formData));
      showBmrCalculator := false;
    }

    /** Every edit of the notes writes the new text to the `fitnessNotes` slot. */
    method EditNotes(ls: Storage, text: string)
      modifies this`notes, ls`fitnessNotes
      ensures notes == text && ls.fitnessNotes == Some(text)
    {
      notes := text;
      ls.fitnessNotes := Some(text);
    }
  }
}
