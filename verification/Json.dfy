/** JSON values and texts. A text is what parsing makes of it: a value, or malformed. */
module Json {
  import opened Basics

  datatype Value =
    | Null
    | Bool(bit: bool)
    | Integer(number: int)
    | Fraction(digits: string)
    | Text(text: string)
    | Array(items: seq<Value>)
    | Object(fields: map<string, Value>)
  {
    function Get(key: string): Option<Value> {
      if Object? && key in fields then Some(fields[key]) else None
    }

    function AsText(): Option<string> {
      if Text? then Some(text) else None
    }

    function AsU64(): Option<nat> {
      if Integer? && 0 <= number <= U64_MAX then Some(number) else None
    }
  }

  // A string member of an object.
  function TextAt(value: Value, key: string): Option<string> {
    var member := value.Get(key);
    if member.Some? then member.value.AsText() else None
  }

  datatype JsonText = Printed(value: Value) | Malformed(raw: string)
}
