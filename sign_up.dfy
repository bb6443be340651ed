/** The sign-up page (src/pages/Signup/SignUpPage.jsx): the account-type
    choice, the five-field form record, and the month and year lists of the
    birth-date selects. The current year is a parameter. */
module SignUp {

  datatype Field = Name | Email | Password | Month | Year

  const AllFields: set<Field> := {Name, Email, Password, Month, Year}

  const InitialForm: map<Field, string> :=
    map[Name := "", Email := "", Password := "", Month := "", Year := ""]

  /** The account types, by id; `learner` is preselected. */
  const UserTypes: seq<string> := ["learner", "teacher", "parent"]
  const DefaultType := "learner"

  const Months: seq<string> := ["January", "February", "March", "April", "May", "June",
                                "July", "August", "September", "October", "November", "December"]

  /** `Array.from({ length: 100 }, (_, i) => currentYear - i)`. */
  function Years(currentYear: int): (r: seq<int>)
    ensures |r| == 100
    ensures forall i :: 0 <= i < 100 ==> r[i] == currentYear - i
  {
    seq(100, i => currentYear - i)
  }

  /** The year list runs from this year back 99 years, newest first, each year once. */
  lemma YearsCoverCentury(currentYear: int)
    ensures Years(currentYear)[0] == currentYear && Years(currentYear)[99] == currentYear - 99
    ensures forall i, j :: 0 <= i < j < 100 ==> Years(currentYear)[i] > Years(currentYear)[j]
    ensures forall y :: y in Years(currentYear) <==> currentYear - 99 <= y <= currentYear
  {
    var ys := Years(currentYear);
    forall y | currentYear - 99 <= y <= currentYear ensures y in ys {
      assert ys[currentYear - y] == y;
    }
  }

  lemma MonthsAreTwelve()
    ensures |Months| == 12 && Months[0] == "January" && Months[11] == "December"
  {
  }

  /** `type={field === 'password' ? 'password' : 'text'}` over the three text inputs. */
  function InputType(field: Field): (r: string)
    ensures r == "password" <==> field == Password
    ensures r != "password" ==> r == "text"
  {
    if field == Password then "password" else "text"
  }

  /** A type button is highlighted iff it is the selected one. */
  predicate TypeHighlighted(selected: string, id: string) {
    selected == id
  }

  /** Exactly one of the three type buttons is highlighted while a listed type is selected. */
  lemma OneTypeHighlighted(selected: string)
    requires selected in UserTypes
    ensures exists i :: 0 <= i < |UserTypes| && TypeHighlighted(selected, UserTypes[i])
    ensures forall i, j :: 0 <= i < j < |UserTypes| ==>
              !(TypeHighlighted(selected, UserTypes[i]) && TypeHighlighted(selected, UserTypes[j]))
  {
  }

  /** The page's state and handlers. */
  class SignUpPage {
    var selectedType: string
    var formData: map<Field, string>

    constructor ()
      ensures selectedType == DefaultType && formData == InitialForm && Valid()
    {
      selectedType := DefaultType;
      formData := InitialForm;
    }

    predicate Valid()
      reads this
    {
      formData.Keys == AllFields
    }

    method SelectType(id: string)
      modifies this`selectedType
      ensures selectedType == id
    {
      selectedType := id;
    }

    /** `handleInputChange(field, value)`: that field only. */
    method HandleInputChange(field: Field, value: string)
      requires Valid()
      modifies this`formData
      ensures Valid()
      ensures formData[field] == value
      ensures forall f :: f in old(formData) && f != field ==> formData[f] == old(formData)[f]
    {
      formData := formData[field := value];
    }
  }
}
