/** The request-level tone identifiers (the `ToneType` string enum). */
module Models {

  datatype ToneType = Formal | Informal | Friendly | Professional | Casual | Complaint | Persuasive | Academic
  {
    /** `tone.value`, the string the handler passes on to the service. */
    function Value(): (v: string)
      ensures v != []
    {
      match this
      case Formal => "formal"
      case Informal => "informal"
      case Friendly => "friendly"
      case Professional => "professional"
      case Casual => "casual"
      case Complaint => "complaint"
      case Persuasive => "persuasive"
      case Academic => "academic"
    }
  }
}
