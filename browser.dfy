/** The browser facilities the pages touch: `localStorage` and navigation
    through `window.location.href`, and the form-record update every form's
    `handleChange` performs. */
module Browser {
  import opened Common

  /** One browser window: its persistent key/value store and the address it
      was last sent to. */
  class Window {
    var localStorage: map<string, string>
    var location: string

    constructor (store: map<string, string>, path: string)
      ensures localStorage == store && location == path
    {
      localStorage := store;
      location := path;
    }

    /** `localStorage.getItem(key)`: null (None) when the key is not stored. */
    function GetItem(key: string): (r: Option<string>)
      reads this
      ensures r.Some? <==> key in localStorage
      ensures r.Some? ==> r.value == localStorage[key]
    {
      if key in localStorage then Some(localStorage[key]) else None
    }

    /** `localStorage.setItem(key, value)` */
    method SetItem(key: string, value: string)
      modifies this`localStorage
      ensures localStorage == old(localStorage)[key := value]
    {
      localStorage := localStorage[key := value];
    }

    /** `localStorage.removeItem(key)` */
    method RemoveItem(key: string)
      modifies this`localStorage
      ensures localStorage == old(localStorage) - {key}
    {
      localStorage := localStorage - {key};
    }

    /** `window.location.href = path` */
    method Navigate(path: string)
      modifies this`location
      ensures location == path
    {
      location := path;
    }
  }

  /** `{...form, [name]: value}`: the named field takes the new value (it is
      added if the record lacked it) and every other field keeps its value. */
  function WithField(form: map<string, string>, name: string, value: string): (r: map<string, string>)
    ensures r.Keys == form.Keys + {name}
    ensures r[name] == value
    ensures forall k :: k in form && k != name ==> r[k] == form[k]
  {
    form[name := value]
  }

  /** Reading `form.field`: a field the record lacks reads as undefined,
      which every page treats like the empty string. */
  function FieldValue(form: map<string, string>, name: string): (r: string)
    ensures name in form ==> r == form[name]
    ensures name !in form ==> r == ""
  {
    if name in form then form[name] else ""
  }

  /** After an update, reading the updated field gives the new value and
      reading any other field gives what it gave before. */
  lemma ReadAfterUpdate(form: map<string, string>, name: string, value: string, other: string)
    ensures FieldValue(WithField(form, name, value), name) == value
    ensures other != name ==> FieldValue(WithField(form, name, value), other) == FieldValue(form, other)
  {
  }
}
