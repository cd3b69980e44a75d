/**
 The closed enumeration of mentor styles. Its string value is what the
 feedback request interpolates into the mentor's system instruction.
 */
module Types {

  /** The two supported comedic-technique personas. */
  datatype Mentor = GregDean | LeoLins {

    /** The enum's string value. */
    function Name(): (r: string)
      ensures r != ""
    {
      match this
      case GregDean => "Greg Dean"
      case LeoLins => "Léo Lins"
    }
  }

  /** Distinct mentors carry distinct names, so the name identifies the style. */
  lemma NameInjective(a: Mentor, b: Mentor)
    ensures a.Name() == b.Name() <==> a == b
  {
    if a != b {
      assert a.Name()[0] != b.Name()[0];
    }
  }
}
