/** The framework services the core calls for side effects. Each is an
    object shared by the services and components that use it (one instance
    per application, as the root injector provides it); each records what
    was asked of it so that contracts can say which effects happened. */
module Effects {
  import opened Models

  /** `ToastrService`: the notifications shown, oldest first. */
  class Toastr {
    var shown: seq<Toast>

    constructor ()
      ensures shown == []
    {
      shown := [];
    }

    method Success(message: string, title: string)
      modifies this
      ensures shown == old(shown) + [Toast(Severity.Success, message, title)]
    {
      shown := shown + [Toast(Severity.Success, message, title)];
    }

    method Error(message: string, title: string)
      modifies this
      ensures shown == old(shown) + [Toast(Severity.Error, message, title)]
    {
      shown := shown + [Toast(Severity.Error, message, title)];
    }
  }

  /** `Router`: the navigation targets requested, oldest first; the commands
      array `['auth/login']` is recorded as the path `"auth/login"`. */
  class Router {
    var navigations: seq<string>

    constructor ()
      ensures navigations == []
    {
      navigations := [];
    }

    method Navigate(path: string)
      modifies this
      ensures navigations == old(navigations) + [path]
    {
      navigations := navigations + [path];
    }
  }

  /** `localStorage`: a string-to-string store. */
  class LocalStorage {
    var items: map<string, string>

    constructor (initial: map<string, string>)
      ensures items == initial
    {
      items := initial;
    }

    /** `getItem`: the stored value, or `null` when the key is absent. */
    method GetItem(key: string) returns (value: Option<string>)
      ensures key in items ==> value == Some(items[key])
      ensures key !in items ==> value == None
    {
      value := if key in items then Some(items[key]) else None;
    }

    method SetItem(key: string, value: string)
      modifies this
      ensures items == old(items)[key := value]
    {
      items := items[key := value];
    }

    method RemoveItem(key: string)
      modifies this
      ensures items == old(items) - {key}
    {
      items := items - {key};
    }
  }
}
