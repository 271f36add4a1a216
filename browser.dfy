/** The browser's durable key-value storage, reduced to the one slot the
    console uses: `localStorage['token']`. */
module Browser {
  import opened JsValues

  /** `String(v)` as `localStorage.setItem` applies it to the value it is
      given: a string is kept as is, an absent value becomes the text
      "undefined" and `null` the text "null" — both non-empty, so truthy
      when read back. */
  function StoredText(v: Field): (r: string)
    ensures v.Str? ==> r == v.text
    ensures v.Undefined? ==> r == "undefined"
    ensures v.Null? ==> r == "null"
    ensures !v.Str? ==> r != ""
  {
    match v
    case Str(s) => s
    case Undefined => "undefined"
    case Null => "null"
  }

  /** The credential record: one named slot holding a string, or nothing. */
  class CredentialStore {
    var slot: Option<string>

    constructor (initial: Option<string>)
      ensures slot == initial
    {
      slot := initial;
    }

    /** `localStorage.getItem('token')` */
    method GetItem() returns (v: Option<string>)
      ensures v == slot
    {
      v := slot;
    }

    /** `localStorage.setItem('token', value)` */
    method SetItem(value: string)
      modifies this
      ensures slot == Some(value)
    {
      slot := Some(value);
    }

    /** `localStorage.removeItem('token')` */
    method RemoveItem()
      modifies this
      ensures slot == None
    {
      slot := None;
    }
  }
}
