# Design-pattern demos: a verified model of the stateful parts

This project models the parts of the PHP design-pattern catalogue that keep
real state or apply a real decision rule. Each part gets one Dafny module:

- `Flyweight` (`flyweight.dfy`): the tree-type interning factory (`TreeFactory`)
  and the forest of trees that share its tree types. The PHP table is a static
  array. Here it is an explicit `TreeFactory` object. Its `order` field holds the
  array's keys in insertion order, which the `find` scan walks. Its `treeTypes`
  field holds the key-to-object mapping. `TreeType` is a class with `const`
  fields, so identity ("the same object") and immutability both carry over.
  The key is the three fields concatenated with no separator. The model keeps
  that, and proves that it collides, and that two different triples whose names
  and colors have equal lengths never share a key.
- `ChainOfResponsibility` (`chain.dfy`): the authentication → logging →
  validation middleware chain. The handlers are objects linked by `next`. Their
  `Handle` method is proved equal to a pure function `Outcome` over the sequence
  of handler kinds, and the properties are proved about that function.
- `Observer` (`observer.dfy`): the error boundary's subscriber list. It covers
  subscribe, unsubscribe by search-then-splice, and notify in list order.
- `MementoPattern` (`memento.dfy`): the editor with its text and its recorded
  state. Mementos wrap immutable states.
- `Mediator` (`mediator.dfy`): the HTTP mediator. It keeps a controller table
  keyed by class and dispatches on the event name.
- `SingletonPattern` (`singleton.dfy`): the lazy singleton. Its static slot is a
  holder object.
- `SimpleFactory` (`simple_factory.dfy`): the GUI factory. It lower-cases the
  platform name, then maps it to a button kind.
- `Wrappers` (`wrappers.dfy`): `Option` stands for PHP's `null`. `Result` stands
  for an error raised instead of a return.

The flyweight's intended design calls for a collision-free key and a direct
keyed lookup. The code does neither: its key is a plain concatenation, and
`find` scans the whole table. The model follows the code. The collision is
proved (`Flyweight.KeyCollides`, `Flyweight.CollidingTriplesShareOneType`), and
the scan is the loop in `Flyweight.TreeFactory.Find`.

## Model

| member | source | states |
|---|---|---|
| `Flyweight.TreeType.constructor` | structural/flyweight.php:39-44 | a tree type holds exactly the three given fields; they are `const`, so no later operation changes them |
| `Flyweight.MakeKey` | structural/flyweight.php:146-150 | the key is name, color and texture laid end to end, with no separator: its length is the sum of theirs and each field sits at the offsets the lengths give |
| `Flyweight.KeyInjectiveForEqualLengths` | structural/flyweight.php:146-150 | two triples with the same key are equal when their names and colors have the same lengths |
| `Flyweight.KeyCollides` | structural/flyweight.php:146-150 | every triple with a non-empty name has a different triple with the same key (the name's last character moved to the color) |
| `Flyweight.KeyCollisionExample` | structural/flyweight.php:146-150 | ("A","B","C") and ("AB","","C") are different triples with the same key "ABC" |
| `Flyweight.TreeFactory.constructor` | structural/flyweight.php:101 | the table starts empty and satisfies the table invariant |
| `Flyweight.TreeFactory.Find` | structural/flyweight.php:117-134 | the scan returns non-null exactly when the key of the arguments is in the table, and then returns the entry stored under it |
| `Flyweight.TreeFactory.Add` | structural/flyweight.php:136-144 | the tree type is stored under the key of its own fields; a new key is appended to the order, an existing one keeps its place; the invariant is kept |
| `Flyweight.TreeFactory.GetTreeType` | structural/flyweight.php:103-115 | a stored key returns the stored object and leaves the table unchanged; an absent key creates a fresh tree type with the given fields, stores it and returns it; the result's key is always the key of the arguments; entries are never removed or replaced and at most one is added |
| `Flyweight.DistinctKeysDistinctObjects` | structural/flyweight.php:136-144 | entries under different keys are different objects |
| `Flyweight.Forest.constructor` | structural/flyweight.php:162 | a new forest has no trees |
| `Flyweight.Forest.PlantTree` | structural/flyweight.php:164-170 | exactly one tree is appended, with the given position and the factory's entry for the triple; earlier trees are unchanged; every tree still points at its factory entry; a known triple leaves the factory's table and key order unchanged, a new one adds an entry with the given fields and appends its key to the order |
| `Flyweight.PlantFiveOaks` | structural/flyweight.php:188-229 | the five planted oaks keep their five positions, share one tree type, and the table holds one entry |
| `Flyweight.CollidingTriplesShareOneType` | structural/flyweight.php:103-150 | asking for ("AB","","C") after ("A","B","C") returns the first object, whose fields are still "A","B","C" |
| `ChainOfResponsibility.Rule` | behavioral/chain-of-responsibility.php:52-84 | a handler passes exactly when it is logging, or authentication with the user set, or validation with the data set and not empty; authentication fails with "Access denied", validation with "Invalid data" |
| `ChainOfResponsibility.Outcome` | behavioral/chain-of-responsibility.php:36-84 | an empty chain yields null; a message is "Access denied" only from a chain holding an authentication handler, and "Invalid data" only from one holding a validation handler |
| `ChainOfResponsibility.OutcomeIsFirstFailure` | behavioral/chain-of-responsibility.php:36-84 | a chain yields null exactly when every handler passes; otherwise it yields the message of the first handler that fails, with every handler before it passing |
| `ChainOfResponsibility.LoggingIsTransparent` | behavioral/chain-of-responsibility.php:64-71 | inserting a logging handler anywhere in a chain never changes its result |
| `ChainOfResponsibility.DemoChainOutcome` | behavioral/chain-of-responsibility.php:52-84 | for authentication, logging, validation: a missing or null user gives "Access denied", else missing or empty data gives "Invalid data", else null |
| `ChainOfResponsibility.HandleRequest` | behavioral/chain-of-responsibility.php:99-108 | the client reports all OK exactly when the result is falsy (null, "" or "0"), and otherwise reports the result itself |
| `ChainOfResponsibility.ReportOkIffAllPass` | behavioral/chain-of-responsibility.php:36-108 | over any chain, the client reports all OK exactly when the chain yields null, that is exactly when every handler passes (no handler's message is falsy) |
| `ChainOfResponsibility.DemoRequests` | behavioral/chain-of-responsibility.php:119-128 | Alice gives all OK; Bob gives "Invalid data"; no user gives "Access denied"; Charlie gives "Invalid data" |
| `ChainOfResponsibility.Middleware.constructor` | behavioral/chain-of-responsibility.php:26-28 | a new handler has its kind and no successor |
| `ChainOfResponsibility.Middleware.SetNext` | behavioral/chain-of-responsibility.php:30-34 | the successor is stored and also returned |
| `ChainOfResponsibility.Middleware.Handle` | behavioral/chain-of-responsibility.php:36-84 | running the linked handler objects gives the same result as `Outcome` on their kinds |
| `ChainOfResponsibility.BuildDemoChain` | behavioral/chain-of-responsibility.php:111-115 | `auth->setNext(logging)->setNext(validation)` links exactly authentication, logging, validation |
| `ChainOfResponsibility.ClientHandleRequest` | behavioral/chain-of-responsibility.php:94-108 | over any linked chain, the report is the client's reading of the chain's result, and all OK exactly when every handler passes; over the demonstration's chain, a missing or null user is reported as "Access denied", otherwise missing or empty data as "Invalid data", and all OK exactly when the user is set and the data is set and not empty |
| `Observer.Subscriber.constructor` | behavioral/observer.php:24-40 | a subscriber has its class and nothing else |
| `Observer.ArraySearch` | behavioral/observer.php:68 | the search returns the first loosely equal index, or false when no entry matches |
| `Observer.SpliceOne` | behavioral/observer.php:69 | splicing one element at a valid offset removes exactly that element and keeps the rest in order; an offset past the end changes nothing |
| `Observer.Unsubscribed` | behavioral/observer.php:66-70 | unsubscribing as written leaves an empty list empty, and from any other list removes exactly one entry, whether or not the subscriber is in it |
| `Observer.UnsubscribePresentRemovesFirstMatch` | behavioral/observer.php:66-70 | unsubscribing a present subscriber removes only the first loosely equal entry and keeps the others in order |
| `Observer.UnsubscribeAbsentRemovesFirst` | behavioral/observer.php:68-69 | unsubscribing an absent subscriber removes the first entry, or nothing from an empty list |
| `Observer.UnsubscribeIfPresentKeepsAbsent` | behavioral/observer.php:66-70 | the corrected removal leaves the list unchanged for an absent subscriber, and for a present one matches the code as written, removing one entry |
| `Observer.SearchIgnoresIdentity` | behavioral/observer.php:68 | two instances of one class find the same index and unsubscribe the same entry |
| `Observer.ErrorBoundary.constructor` | behavioral/observer.php:59 | the list starts empty |
| `Observer.ErrorBoundary.Subscribe` | behavioral/observer.php:61-64 | the subscriber is appended at the end, even if it is already in the list |
| `Observer.ErrorBoundary.Unsubscribe` | behavioral/observer.php:66-70 | the list becomes the one the search-then-splice gives, with false taken as offset 0 |
| `Observer.ErrorBoundary.UnsubscribeIfPresent` | behavioral/observer.php:66-70 | the corrected unsubscribe removes the first match and removes nothing when the subscriber is absent |
| `Observer.ErrorBoundary.Notify` | behavioral/observer.php:72-81 | `update` runs once per entry, in list order |
| `Observer.Demo` | behavioral/observer.php:61-92 | the logger and the notifier are notified in that order; subscribing the logger again stores it twice; unsubscribing a different logger instance removes the first stored logger |
| `MementoPattern.Editor.constructor` | behavioral/memento.php:60-64 | a new editor has empty text and no recorded state |
| `MementoPattern.Editor.SetText` | behavioral/memento.php:66-72 | the text becomes the argument and a new state holding it is recorded |
| `MementoPattern.Editor.SaveToMemento` | behavioral/memento.php:79-82 | the memento wraps the recorded state; saving fails when no state has been recorded |
| `MementoPattern.Editor.RestoreFromMemento` | behavioral/memento.php:84-88 | the text becomes the memento's text and the recorded state is left unchanged |
| `MementoPattern.RoundTrip` | behavioral/memento.php:101-113 | after setting a text and saving, any number of later `setText` calls followed by a restore give the saved text back, and the memento still holds it |
| `MementoPattern.SaveOnNewEditor` | behavioral/memento.php:56-82 | saving on a new editor fails because the state was never recorded |
| `MementoPattern.SaveAfterRestore` | behavioral/memento.php:101-113 | the demonstration shows "Hello World" and then "Hello"; a memento saved right after the restore holds "Hello World" |
| `Mediator.Controller.constructor` | behavioral/mediator.php:58-84 | a controller has its class and no mediator |
| `Mediator.Controller.SetMediator` | behavioral/mediator.php:62-65 | the mediator is stored |
| `Mediator.RouteOf` | behavioral/mediator.php:40-49 | the switch sends exactly "GET" to the GetController class and exactly "POST" to the PostController class; every other event string, other spellings included, matches no case |
| `Mediator.Route` | behavioral/mediator.php:38-50 | "GET" and "POST" go to the controller registered under their class; any other event is ignored; an unregistered class ends in a call on null; a handled controller has the right class |
| `Mediator.RegisteredControllerHandles` | behavioral/mediator.php:30-50 | after registering a GetController, "GET" reaches exactly it; the same holds for PostController and "POST" |
| `Mediator.HttpMediator.constructor` | behavioral/mediator.php:28 | the controller table starts empty |
| `Mediator.HttpMediator.RegisterController` | behavioral/mediator.php:30-33 | the controller is stored under its class and replaces an earlier one of that class, so there is at most one per class |
| `Mediator.HttpMediator.Notify` | behavioral/mediator.php:38-50 | dispatch follows `Route` on the event name alone, whoever the sender is, and the table is not modified |
| `Mediator.Demo` | behavioral/mediator.php:86-104 | each request reaches the controller of its own method whoever sends it; "PUT" reaches none; after a second GetController is registered, "GET" reaches exactly that new controller, not the first |
| `SingletonPattern.SingletonHolder.constructor` | creational/singleton.php:12 | the slot starts empty |
| `SingletonPattern.SingletonHolder.GetInstance` | creational/singleton.php:36-43 | the first call creates a fresh instance; every later call returns that same object; the result is never null; at most one instance is ever created |
| `SingletonPattern.SingletonHolder.Unserialize` | creational/singleton.php:27-30 | unserialising always fails with "Cannot unserialize a singleton.", so it never produces a second instance: the slot and the count of created instances are unchanged |
| `SingletonPattern.UnserializeBetweenCalls` | creational/singleton.php:27-43 | an attempt to unserialise between two `getInstance` calls fails, and both calls return the same object |
| `SingletonPattern.Demo` | creational/singleton.php:46-50 | two calls return the identical object |
| `SingletonPattern.RepeatedCalls` | creational/singleton.php:36-43 | any number of calls after the first return the first call's object, and exactly one instance exists |
| `SimpleFactory.ToLower` | creational/simple-factory.php:48 | lower-casing keeps the length and lower-cases each ASCII letter in place |
| `SimpleFactory.ToLowerIdempotent` | creational/simple-factory.php:48 | lower-casing twice equals lower-casing once |
| `SimpleFactory.NewGuiFactory` | creational/simple-factory.php:46-49 | the stored platform is the argument lower-cased, and is itself already lower-case |
| `SimpleFactory.MakeButton` | creational/simple-factory.php:51-59 | "windows" gives a Windows button and "linux" a Linux button; any other stored platform is a type error |
| `SimpleFactory.MakeButtonIgnoresCase` | creational/simple-factory.php:46-59 | two platform names that agree up to ASCII case give the same result |
| `SimpleFactory.MakeButtonAccepts` | creational/simple-factory.php:46-59 | a platform name gives a Windows button exactly when it spells "windows" in any mix of cases, and a Linux button exactly when it spells "linux" |
| `SimpleFactory.PlatformSpellings` | creational/simple-factory.php:46-59 | "Windows", "WINDOWS" and "windows" give a Windows button; "Linux" gives a Linux button; "macos" is an error |

## Findings

| source | as written | input that shows it | evidently intended | confidence | as-written member | corrected member |
|---|---|---|---|---|---|---|
| behavioral/observer.php:68-69 | `array_search` returns `false` for an absent subscriber, and `array_splice` takes `false` as offset 0 | list [logger]; unsubscribe a RemoteNotifySubscriber: the logger is removed | an absent subscriber leaves the list unchanged | high, not executed | `Observer.UnsubscribeAbsentRemovesFirst` | `Observer.UnsubscribeIfPresentKeepsAbsent` |

The key collision in `structural/flyweight.php:146-150` is also a defect.
The model deliberately keeps it as written and does not correct it (see
`Flyweight.KeyCollides`).

## Left out

- Console output is not modelled: every `echo`, every `var_dump`, the `draw`
  methods of `TreeType`, `Tree` and `Forest`, the `update` bodies, `render` and
  `onClick`, and `json_encode` in logging. `Notify` returns the subscribers it
  updates, in order, instead of printing.
- The random choice of demonstration input (`array_rand`) and `uniqid` in
  `notify` are not modelled. The mediator and factory demonstrations are
  stated for every choice.
- The `Exception` object built in `notify` is left out. So are `DateTime` in
  the editor, `onTextChange` (it only resets the date) and `getDateTime`. Only
  text and order are modelled.
- Tree positions are PHP floats that are only stored, never computed on. The
  model uses integers for them.
- PHP turns a numeric-string key such as "123" into an integer array key. This
  is not modelled. It makes no difference, because `find` recomputes every key
  from the entry's fields.
- `ChainOfResponsibility.Middleware.Handle` requires `Linked(nodes)`, which
  admits only finite, acyclic chains that end in null. PHP `setNext` also builds
  cycles, such as `$a->setNext($a)`, and on those `handle` recurses without end
  when every handler passes. Cyclic chains are not modelled; the demonstration's
  chain is acyclic.
- The three middleware subclasses are one `Middleware` class with a `kind` tag,
  not an inheritance hierarchy. The `Client` object is the method
  `ClientHandleRequest`, which takes the chain's head.
- Request values are null, booleans, integers and strings. PHP `empty` on floats
  and arrays is not modelled. PHP_EOL is taken as "\n".
- Private constructors and `__clone` cannot be expressed as access control in
  Dafny. The model creates a `Singleton` only inside `GetInstance`, and the
  ghost counter `created` shows that this happens at most once. The static slot
  is an explicit holder object.
- The mediator's `$sender` is untyped in PHP. The model takes a controller as
  the sender. `$sender::class` on other values (on null it is an Error) is not
  modelled. The undefined-key warning raised just before the call on null is
  folded into `NullController`.
- `SimpleFactory.MakeButton` returns the kind of button, not a button object. So
  the fact that every call builds a fresh object is not stated.
- `strtolower` is modelled as ASCII lower-casing, which is its behaviour since
  PHP 8.2. Locale-dependent lower-casing in older versions is not modelled.
- `Forest::getTrees` is the plain function `Forest.GetTrees`, and `getText` is
  `Editor.GetText`. `Memento::getState` and the `State` getters are datatype
  fields.
