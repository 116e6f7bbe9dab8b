/**
 * The framework objects the module's code reads and writes: URLs and
 * responses as values, and the request, the kernel's request event and a
 * route as objects whose fields the code updates in place.
 */
module Http {
  import opened Wrappers
  import opened Php
  import opened Query

  /** Where a response sends the browser. */
  datatype Url =
    /** A URL generated from a Drupal route name and query. */
    | RouteUrl(route: string, query: Query, absolute: bool)
    /** A string handed unchanged to RedirectResponse. */
    | Raw(target: Value)
    /** The identity provider's authorize page, as the client builds it from its arguments. */
    | ProviderAuthorize(token: string, secret: string, callback: Url, authorizeType: string,
                        skipConfirmation: bool, langcode: string)

  const FRONT: Url := RouteUrl("<front>", [], false)

  /** The answers a controller or subscriber gives. */
  datatype Response =
    | Redirect(target: Url, status: int)
    | TrustedRedirect(target: Url, status: int)
    /** A render array with markup and a title. */
    | Markup(markup: string, title: string)
    /** A render array naming a theme hook. */
    | Themed(theme: string)

  /** The incoming request: its path info and its (mutable) query bag. */
  class Request {
    var query: Query
    const pathInfo: string

    constructor (pathInfo: string, query: Query)
      ensures this.pathInfo == pathInfo && this.query == query
    {
      this.pathInfo := pathInfo;
      this.query := query;
    }
  }

  /** The kernel's request event: a subscriber may set a response on it. */
  class RequestEvent {
    const request: Request
    var response: Option<Response>

    constructor (request: Request)
      ensures this.request == request && response == None
    {
      this.request := request;
      response := None;
    }
  }

  /** A route definition; only its requirements are changed by the module. */
  class Route {
    const path: string
    var defaults: map<string, Value>
    var requirements: map<string, Value>
    var options: map<string, Value>

    constructor (path: string, requirements: map<string, Value>)
      ensures this.path == path && this.requirements == requirements
      ensures defaults == map[] && options == map[]
    {
      this.path := path;
      this.requirements := requirements;
      defaults := map[];
      options := map[];
    }

    /** `getRequirement($key)`: null when the route has none under that key. */
    function GetRequirement(key: string): (v: Value)
      reads this
      ensures key !in requirements ==> v == Null
      ensures key in requirements ==> v == requirements[key]
    {
      if key in requirements then requirements[key] else Null
    }

    /** `setRequirement($key, $v)`: replaces that one requirement. */
    method SetRequirement(key: string, v: Value)
      modifies this
      ensures requirements == old(requirements)[key := v]
      ensures defaults == old(defaults) && options == old(options)
    {
      requirements := requirements[key := v];
    }
  }
}
