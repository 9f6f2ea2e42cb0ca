/**
 * The HTTP mediator: controllers registered by class, and events dispatched to
 * the controller of the class the event names.
 */
module Mediator {
  import opened Wrappers

  datatype ControllerClass = GetController | PostController

  /** A controller (PHP: BaseController and its two subclasses). */
  class Controller {
    const cls: ControllerClass
    var mediator: HttpMediator?

    constructor (cls: ControllerClass)
      ensures this.cls == cls && mediator == null
    {
      this.cls := cls;
      mediator := null;
    }

    /** `setMediator`: stores the mediator. */
    method SetMediator(mediator: HttpMediator)
      modifies this
      ensures this.mediator == mediator
    {
      this.mediator := mediator;
    }
  }

  /** What `notify` does: which controller's `handle` runs, or why none does. */
  datatype Dispatch =
    | Handled(controller: Controller)
    /** The event matches no case of the switch. */
    | Ignored
    /** The event's class was never registered: `handle()` is called on null, an Error. */
    | NullController(cls: ControllerClass)

  /** The controller class an event is routed to: only the exact strings "GET" and "POST" match. */
  function RouteOf(event: string): (r: Option<ControllerClass>)
    ensures r == Some(GetController) <==> event == "GET"
    ensures r == Some(PostController) <==> event == "POST"
    ensures r == None <==> event != "GET" && event != "POST"
  {
    if event == "GET" then Some(GetController)
    else if event == "POST" then Some(PostController)
    else None
  }

  /** Every controller sits under its own class. */
  ghost predicate KeyedByClass(controllers: map<ControllerClass, Controller>)
  {
    forall c :: c in controllers ==> controllers[c].cls == c
  }

  /** The dispatch decision of `notify` for a table of controllers. */
  function Route(controllers: map<ControllerClass, Controller>, event: string): (r: Dispatch)
    ensures r == Ignored <==> event != "GET" && event != "POST"
    ensures r.NullController? <==> RouteOf(event).Some? && RouteOf(event).value !in controllers
    ensures r.Handled? ==> RouteOf(event).Some? && controllers[RouteOf(event).value] == r.controller
    ensures r.Handled? && KeyedByClass(controllers) ==> r.controller.cls == RouteOf(event).value
  {
    match RouteOf(event)
    case None => Ignored
    case Some(cls) => if cls in controllers then Handled(controllers[cls]) else NullController(cls)
  }

  /** "GET" reaches the registered GetController, "POST" the registered PostController. */
  lemma RegisteredControllerHandles(controllers: map<ControllerClass, Controller>, c: Controller)
    ensures c.cls == GetController ==> Route(controllers[GetController := c], "GET") == Handled(c)
    ensures c.cls == PostController ==> Route(controllers[PostController := c], "POST") == Handled(c)
  {
  }

  class HttpMediator {
    var controllers: map<ControllerClass, Controller>

    ghost predicate Valid()
      reads this
    {
      KeyedByClass(controllers)
    }

    constructor ()
      ensures Valid() && controllers == map[]
    {
      controllers := map[];
    }

    /**
     * `registerController`: stores the controller under its class, replacing an
     * earlier one of the same class.
     */
    method RegisterController(controller: Controller)
      requires Valid()
      modifies this
      ensures Valid()
      ensures controllers == old(controllers)[controller.cls := controller]
    {
      controllers := controllers[controller.cls := controller];
    }

    /**
     * `notify`: routes the event by its name alone; the sender plays no part.
     * The controller table is not changed.
     */
    method Notify(sender: Controller, event: string) returns (r: Dispatch)
      requires Valid()
      ensures r == Route(controllers, event)
      ensures r.Handled? ==> r.controller.cls == RouteOf(event).value
    {
      match event {
        case "GET" =>
          if GetController in controllers {
            r := Handled(controllers[GetController]);
          } else {
            r := NullController(GetController);
          }
        case "POST" =>
          if PostController in controllers {
            r := Handled(controllers[PostController]);
          } else {
            r := NullController(PostController);
          }
        case _ =>
          r := Ignored;
      }
    }
  }

  /**
   * The demonstration, continued by two more events: both controllers are
   * registered and either request routes to the controller of its own method
   * whoever sends it; then a "PUT" is ignored, and a second GetController
   * replaces the first.
   */
  method Demo() returns (onGet: Dispatch, onPost: Dispatch, onPut: Dispatch, otherGet: Controller, afterReplace: Dispatch)
    ensures onGet.Handled? && onGet.controller.cls == GetController
    ensures onPost.Handled? && onPost.controller.cls == PostController
    ensures onPut == Ignored
    ensures otherGet.cls == GetController
    ensures afterReplace == Handled(otherGet) && otherGet != onGet.controller
  {
    var httpMediator := new HttpMediator();
    var getController := new Controller(GetController);
    var postController := new Controller(PostController);
    httpMediator.RegisterController(getController);
    httpMediator.RegisterController(postController);
    onGet := httpMediator.Notify(postController, "GET");
    onPost := httpMediator.Notify(getController, "POST");
    onPut := httpMediator.Notify(getController, "PUT");
    otherGet := new Controller(GetController);
    httpMediator.RegisterController(otherGet);
    afterReplace := httpMediator.Notify(getController, "GET");
  }
}
