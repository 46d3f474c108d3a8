# design-patterns-typescript in Dafny

A verified model of the stateful and computational parts of a catalogue of
TypeScript design-pattern demos. Each core demo gets one Dafny module, and the
module keeps the demo's own form:

- **Objects whose methods update fields become classes.** Their state is in
  `seq`/`map` fields, and each method is specified against the old state. These
  are Memento's `TextEditor` and `Caretaker`, Observer's news agency, Bridge's
  devices and remotes, the chain of approvers, the TCP connection, the Flyweight
  font factory, the Proxy server, Composite's file-system components, Command's
  chef and waiter, the Builder, and the Prototype shape cache.
- **Pure logic becomes datatypes and functions.** This covers the Facade
  payment dispatch, Decorator descriptions, the logger factory and line
  formats, the TCP transition table, approval thresholds, and the recursive
  size and listing of a file tree.
- **Console output becomes returned values or recorded traces.** Messages are
  outcome datatypes, delivery lists, or the requests a real server handled.
  In Command, where the chef and the waiter write to the same console in turn,
  the console is a `Console` object passed to the methods that write to it.
- **Each object-level operation has a partner.** A pure reference definition
  (`Dispatch`, `Transition`, `Press`, `Size`, `Listed`, `Broadcast`, `KitchenLines`,
  `KeysAfter`), an inverse (`ParseInt`, `ReadReceipt`, `MessageOf`, `WrapAll`,
  `DishOf`),
  or an invariant every method preserves (`Valid`). Lemmas connect the
  operation to its partner for all inputs.
- **Each driver script becomes a scenario member.** Its `ensures` states the
  script's concrete results.

Three helper modules support the rest:

- `Wrappers` holds `Option` and `Result`.
- `Text` renders a JavaScript number used as an integer (`${n}`) as decimal
  text, with a parser proved to be its inverse.
- `Sequences` holds `indexOf` and `splice(i, 1)` over sequences.

## Model

| member | source | states |
|---|---|---|
| Text.NatToString | Structural/Facade/facade.ts:44 | the decimal text of a natural number is non-empty, made of digits, and starts with '0' only for zero |
| Text.IntToString | Structural/Bridge/bridge.ts:26 | the text of an integer is non-empty, made of digits and a sign, and starts with '-' exactly when the number is negative |
| Text.NatToStringRoundTrip | Structural/Facade/facade.ts:44 | reading back the digits of a natural number gives that number |
| Text.IntToStringRoundTrip | Structural/Facade/facade.ts:44 | parsing the text of any integer gives that integer back |
| Text.IntToStringInjective | Structural/Bridge/bridge.ts:26 | distinct integers are rendered as distinct texts |
| Sequences.IndexOf | Behavioral/Observer/observer.ts:20 | indexOf gives -1 exactly when the element is absent, and otherwise the index of its first occurrence |
| Sequences.RemoveAt | Behavioral/Observer/observer.ts:23 | splice(i, 1) drops exactly the element at i, keeps the others in order, and is a permutation minus that element |
| Memento.TextEditor.constructor | Behavioral/Memento/memento.ts:32-34 | the editor starts with the given content |
| Memento.TextEditor.SetContent | Behavioral/Memento/memento.ts:40-42 | the content becomes the argument |
| Memento.TextEditor.SaveToMemento | Behavioral/Memento/memento.ts:47-49 | the snapshot holds the current content and the editor is not changed |
| Memento.TextEditor.RestoreFromMemento | Behavioral/Memento/memento.ts:54-56 | the content becomes the snapshot's state |
| Memento.SaveThenRestore | Behavioral/Memento/memento.ts:47-56 | restoring a snapshot just taken leaves the content unchanged |
| Memento.Caretaker.constructor | Behavioral/Memento/memento.ts:64-68 | the history starts empty with cursor -1, and the invariant holds |
| Memento.Caretaker.Save | Behavioral/Memento/memento.ts:74-78 | appends exactly one snapshot of the editor's content, keeps earlier snapshots, points the cursor at the last one, and keeps the cursor invariant |
| Memento.Caretaker.Undo | Behavioral/Memento/memento.ts:84-90 | with the cursor at most 0 nothing changes; otherwise the cursor goes back one and the editor gets that snapshot; the history is untouched and the invariant is kept |
| Memento.Caretaker.Redo | Behavioral/Memento/memento.ts:96-102 | at the last snapshot nothing changes; otherwise the cursor goes forward one and the editor gets that snapshot; the history is untouched and the invariant is kept |
| Memento.UndoRedoScenario | Behavioral/Memento/memento.ts:106-133 | after three saves and an unsaved edit, undo, undo, redo, redo give "Updated content", "Initial content", "Updated content", "More changes" |
| Observer.Broadcast | Behavioral/Observer/observer.ts:29-31 | one delivery per list entry, in list order, each carrying the news |
| Observer.Subscriber.constructor | Behavioral/Observer/observer.ts:47-58 | a subscriber keeps the name it prints, and subscribers are told apart by identity |
| Observer.NewsAgency.constructor | Behavioral/Observer/observer.ts:11-12 | no subscribers and empty news at the start |
| Observer.NewsAgency.Attach | Behavioral/Observer/observer.ts:14-17 | appends the subscriber at the end with no duplicate check; the news is kept |
| Observer.NewsAgency.Detach | Behavioral/Observer/observer.ts:19-25 | an absent subscriber leaves the list unchanged; a present one loses only its first occurrence and the others keep their order |
| Observer.NewsAgency.NotifySubscribers | Behavioral/Observer/observer.ts:27-32 | delivers the current news once to every list entry in order and changes neither the list nor the news |
| Observer.NewsAgency.AddNews | Behavioral/Observer/observer.ts:34-38 | stores the news, then delivers it once per list entry in order; the list is kept |
| Observer.NewsScenario | Behavioral/Observer/observer.ts:60-72 | both subscribers receive the first two headlines in attach order, and after the detach only subscriber1 receives the third |
| Bridge.Raised | Structural/Bridge/bridge.ts:23-27 | a step up never lowers the volume and keeps a volume in 0..100 inside it |
| Bridge.Lowered | Structural/Bridge/bridge.ts:29-33 | a step down never raises the volume and keeps a volume in 0..100 inside it |
| Bridge.Press | Structural/Bridge/bridge.ts:13-43 | only the power button changes whether the device is on, and it keeps the volume |
| Bridge.PressAllKeepsRange | Structural/Bridge/bridge.ts:23-33 | from a volume in 0..100, no sequence of power, volume and mute presses takes the volume out of 0..100 |
| Bridge.VolumeButtonsKeepPower | Structural/Bridge/bridge.ts:23-33 | presses without the power button never change whether the device is on |
| Bridge.PowerKeepsVolume | Structural/Bridge/bridge.ts:13-21 | power presses never change the volume, and an even number of them restores the state |
| Bridge.Device.TV | Structural/Bridge/bridge.ts:69-72 | a TV starts off at volume 50 |
| Bridge.Device.Radio | Structural/Bridge/bridge.ts:101-104 | a Radio starts off at volume 30 |
| Bridge.Device.Enable | Structural/Bridge/bridge.ts:78-80 | switches on and keeps the volume |
| Bridge.Device.Disable | Structural/Bridge/bridge.ts:82-84 | switches off and keeps the volume |
| Bridge.Device.SetVolume | Structural/Bridge/bridge.ts:90-94 | accepts a volume exactly when it is in 0..100 and otherwise keeps the old one; the power is kept and the range invariant preserved |
| Bridge.RemoteControl.constructor | Structural/Bridge/bridge.ts:9-11 | the remote controls the device it is given |
| Bridge.RemoteControl.TogglePower | Structural/Bridge/bridge.ts:13-21 | flips the power, keeps the volume, and reports "Turning off" exactly when the device was on |
| Bridge.RemoteControl.VolumeUp | Structural/Bridge/bridge.ts:23-27 | adds 10 when the volume is at most 90 and otherwise keeps it, keeps the power, and reports the volume after the update |
| Bridge.RemoteControl.VolumeDown | Structural/Bridge/bridge.ts:29-33 | subtracts 10 when the volume is at least 10 and otherwise keeps it, keeps the power, and reports the volume after the update |
| Bridge.AdvancedRemoteControl.constructor | Structural/Bridge/bridge.ts:9-11 | the inherited constructor: the advanced remote controls the device it is given |
| Bridge.AdvancedRemoteControl.Mute | Structural/Bridge/bridge.ts:40-43 | sets the volume to 0 and keeps the power |
| Bridge.ClientCode | Structural/Bridge/bridge.ts:133-138 | the client's four presses give the power message and three volume messages, and the device ends in the state the press model predicts |
| Bridge.RemoteScenario | Structural/Bridge/bridge.ts:140-148 | the TV reports volumes 60, 50, 40 and the Radio 40, 30, 20 |
| ChainOfResponsibility.Approves | Behavioral/ChainOfResponsibility/chainOfResponsibility.ts:42-69 | every approver approves amounts up to 1000, and only the CEO approves amounts above 5000 |
| ChainOfResponsibility.Dispatch | Behavioral/ChainOfResponsibility/chainOfResponsibility.ts:21-69 | an approval names an approver of the chain with the authority for the amount, and a rejection means the last approver declined |
| ChainOfResponsibility.DispatchIsFirstApprover | Behavioral/ChainOfResponsibility/chainOfResponsibility.ts:21-69 | a request is rejected exactly when no handler in the chain approves it, and otherwise it goes to the first approving handler in chain order |
| ChainOfResponsibility.Approver.constructor | Behavioral/ChainOfResponsibility/chainOfResponsibility.ts:13-22 | a new approver has its role and no successor, the unset link that processRequest tests |
| ChainOfResponsibility.Approver.SetNext | Behavioral/ChainOfResponsibility/chainOfResponsibility.ts:16-19 | replaces the successor and returns its argument |
| ChainOfResponsibility.Approver.ProcessRequest | Behavioral/ChainOfResponsibility/chainOfResponsibility.ts:21-69 | walking the links, which may loop, until an approver approves or a link is null gives the outcome of the threshold dispatch over the roles visited |
| ChainOfResponsibility.StandardChainDepartment | Behavioral/ChainOfResponsibility/chainOfResponsibility.ts:43-50 | in the chain Department, Finance, CEO, amounts up to 1000 are approved by the Department Manager |
| ChainOfResponsibility.StandardChainFinance | Behavioral/ChainOfResponsibility/chainOfResponsibility.ts:55-63 | amounts in (1000, 5000] are approved by the Finance Manager |
| ChainOfResponsibility.StandardChainCEO | Behavioral/ChainOfResponsibility/chainOfResponsibility.ts:67-69 | amounts above 5000 reach the CEO, who approves any amount |
| ChainOfResponsibility.LoneDeclinerRejects | Behavioral/ChainOfResponsibility/chainOfResponsibility.ts:21-29 | a handler that declines and has no successor reports that the request cannot be approved |
| ChainOfResponsibility.ApprovalScenario | Behavioral/ChainOfResponsibility/chainOfResponsibility.ts:75-103 | laptops (800), office supplies (3000) and furniture (10000) are approved by Department, Finance and CEO respectively |
| ChainOfResponsibility.LoopedChainScenario | Behavioral/ChainOfResponsibility/chainOfResponsibility.ts:16-69 | when the CEO's successor is set back to the Department Manager, making the links a ring, 3000 is still approved by Finance and 10000 by the CEO |
| State.Transition | Behavioral/State/state.ts:50-88 | send and acknowledge never change the state; data is sent exactly in Established; acknowledge is always an error; the state changes exactly for open in Closed and close in Established |
| State.RunEndsByLastControl | Behavioral/State/state.ts:50-88 | after any event sequence the final state is decided by the last open or close, or is the initial state if there is none |
| State.TcpConnection.constructor | Behavioral/State/state.ts:10-12 | a new connection is Closed |
| State.TcpConnection.Open | Behavioral/State/state.ts:23-25 | the new state and the report are the transition table's for open |
| State.TcpConnection.Close | Behavioral/State/state.ts:27-29 | the new state and the report are the transition table's for close |
| State.TcpConnection.Send | Behavioral/State/state.ts:31-33 | the new state and the report are the transition table's for send |
| State.TcpConnection.Acknowledge | Behavioral/State/state.ts:35-37 | the new state and the report are the transition table's for acknowledge |
| State.ConnectionScenario | Behavioral/State/state.ts:91-103 | open, send, close, send report opening, sending "Hello, server!", closing and a rejected send, and end Closed |
| Flyweight.FlyweightKey | Structural/Flyweight/flyweight.ts:44-46 | the family and the style can be read back on either side of the '_' at position |family| |
| Flyweight.FlyweightKeyDeterminesParts | Structural/Flyweight/flyweight.ts:44-46 | when neither family contains '_', equal keys mean equal family and style |
| Flyweight.FlyweightKeyCollision | Structural/Flyweight/flyweight.ts:44-46 | without that condition ("A_B", "C") and ("A", "B_C") share a key |
| Flyweight.FontFlyweight.constructor | Structural/Flyweight/flyweight.ts:76-93 | the getters return the constructor's family and style |
| Flyweight.PreloadedKeysAreFive | Structural/Flyweight/flyweight.ts:18-26 | the preloaded fonts have five distinct keys |
| Flyweight.DocumentFontFactory.constructor | Structural/Flyweight/flyweight.ts:10-13 | a new factory holds exactly the five preloaded keys, each entry under its own key |
| Flyweight.PlainKeyNotInherited | Structural/Flyweight/flyweight.ts:8-63 | a key whose family is non-empty and has no '_' never names a member the registry object inherits from Object.prototype |
| Flyweight.DocumentFontFactory.LoadFontFlyweights | Structural/Flyweight/flyweight.ts:18-26 | fills an empty registry with exactly the five preloaded fonts |
| Flyweight.DocumentFontFactory.CreateFontFlyweight | Structural/Flyweight/flyweight.ts:8-38 | a key naming an inherited Object.prototype member changes nothing; any other key is added; an existing entry is never replaced, and a new entry is a fresh flyweight with the given family and style |
| Flyweight.DocumentFontFactory.GetFontFlyweight | Structural/Flyweight/flyweight.ts:8-63 | a key naming an inherited Object.prototype member returns that member (null, no flyweight) and leaves the registry unchanged; any other key returns the entry under it, adding one only if absent, and a new entry has exactly the requested family and style; every old entry is kept; and when no stored family contains '_' and the requested family has none either, a returned flyweight has the requested family and style |
| Flyweight.KeysAfterAddsRequested | Structural/Flyweight/flyweight.ts:8-63 | after any sequence of requests the keys are the old keys plus exactly the requested keys that do not name an inherited member |
| Flyweight.RegistryBound | Structural/Flyweight/flyweight.ts:32-63 | from a new factory the registry only grows and has at most 5 plus the number of distinct requested keys |
| Flyweight.RequestTwice | Structural/Flyweight/flyweight.ts:51-63 | asking twice for the same font returns the same object and adds at most its key |
| Flyweight.FontScenario | Structural/Flyweight/flyweight.ts:136-164 | the three documents get Arial Regular, Times New Roman Italic and Arial Bold, and the registry stays at five |
| Flyweight.CollidingKeyScenario | Structural/Flyweight/flyweight.ts:44-63 | a request for ("A_B", "C") creates a flyweight with that family and style, and a later request for ("A", "B_C") returns that same flyweight |
| Flyweight.InheritedKeyScenario | Structural/Flyweight/flyweight.ts:8-63 | asking a new factory for family "" and style "_proto__" finds the inherited "__proto__" member, not a flyweight, and the registry stays at five |
| Proxy.Response | Structural/Proxy/proxy.ts:40 | the cached text is "Response for '<resource>'", from which the resource can be read back |
| Proxy.RealServer.constructor | Structural/Proxy/proxy.ts:15-19 | a new real server has handled no request |
| Proxy.RealServer.Request | Structural/Proxy/proxy.ts:16-18 | every request is handled, with no caching |
| Proxy.ProxyServer.constructor | Structural/Proxy/proxy.ts:30-33 | the cache starts empty |
| Proxy.ProxyServer.Request | Structural/Proxy/proxy.ts:35-42 | a cached resource is not forwarded and the cache is kept; a new one is forwarded once and cached as "Response for '<resource>'"; the cache keys stay the distinct resources requested, and forwards equal cache entries |
| Proxy.ProxyScenario | Structural/Proxy/proxy.ts:54-64 | the real server handles /data1 and /data2 directly, then /data1 and /data3 through the proxy |
| Composite.EmptyDirectorySize | Structural/Composite/composite.ts:84-90 | an empty directory has size 0 |
| Composite.SizeAfterAdd | Structural/Composite/composite.ts:67-70 | adding a child adds its size to the directory's size |
| Composite.SizeAfterRemove | Structural/Composite/composite.ts:72-78 | removing a child subtracts its size from the directory's size |
| Composite.Component.File | Structural/Composite/composite.ts:34-38 | a file keeps its name and size and has no parent |
| Composite.Component.Directory | Structural/Composite/composite.ts:62-65 | a directory keeps its name, has no children and no parent |
| Composite.Component.SetParent | Structural/Composite/composite.ts:8-10 | sets the parent link and nothing else |
| Composite.Component.Add | Structural/Composite/composite.ts:67-70 | appends the child at the end and sets its parent to this directory |
| Composite.Component.Remove | Structural/Composite/composite.ts:72-78 | an absent component changes nothing; a present one loses its first occurrence, the others keep their order, and its parent becomes null |
| Composite.Component.GetSize | Structural/Composite/composite.ts:44-90 | the size of an acyclic component is the file's own size or the sum of its children's sizes |
| Composite.Component.Ls | Structural/Composite/composite.ts:44-97 | lists in pre-order: the directory with its size first, then its children in insertion order |
| Composite.ExampleTreeSize | Structural/Composite/composite.ts:101-113 | Documents is 100, Pictures is 500, and the root is 600 |
| Composite.ExampleTreeListing | Structural/Composite/composite.ts:101-115 | the listing of the example tree in pre-order |
| Composite.FileSystemScenario | Structural/Composite/composite.ts:101-115 | building the example tree object by object gives size 600 and the expected listing |
| Command.Console.constructor | Behavioral/Command/command.ts:31 | the console starts with no lines |
| Command.Console.Log | Behavioral/Command/command.ts:31 | appends exactly the line to the console |
| Command.PreparingLineRoundTrip | Behavioral/Command/command.ts:30-32 | the chef's line names exactly the dish it was written for |
| Command.Chef.PrepareDish | Behavioral/Command/command.ts:30-32 | appends "Chef: Preparing <dish>..." to the console and nothing else |
| Command.PrepareDishCommand.constructor | Behavioral/Command/command.ts:15-18 | the command keeps the chef and the dish it is given |
| Command.PrepareDishCommand.Execute | Behavioral/Command/command.ts:20-22 | the command's chef writes the line for the command's dish |
| Command.Dishes | Behavioral/Command/command.ts:45-48 | the dishes of a queue, one per order in queue order |
| Command.KitchenLines | Behavioral/Command/command.ts:45-48 | one chef line per order, in queue order, naming that order's dish |
| Command.DishesOf | Behavioral/Command/command.ts:30-32 | one dish read back per chef line |
| Command.KitchenLinesNameDishes | Behavioral/Command/command.ts:45-48 | reading the chef lines back gives the queue's dishes in queue order |
| Command.Waiter.constructor | Behavioral/Command/command.ts:39 | the queue starts empty |
| Command.Waiter.TakeOrder | Behavioral/Command/command.ts:41-43 | appends the command to the end of the queue |
| Command.Waiter.PlaceOrders | Behavioral/Command/command.ts:45-49 | writes the waiter's line, then one chef line per queued order in queue order across all chefs, and then empties the queue |
| Command.RestaurantScenario | Behavioral/Command/command.ts:53-67 | the console shows the waiter's line and then Pizza, Pasta and Salad being prepared; a second placeOrders only adds the waiter's line |
| Builder.Computer.constructor | Creational/Builder/builder.ts:70-75 | a new computer has all four parts unset |
| Builder.ComputerBuilder.constructor | Creational/Builder/builder.ts:24-30 | a new builder holds a fresh blank computer |
| Builder.ComputerBuilder.Reset | Creational/Builder/builder.ts:28-30 | replaces the product with a fresh blank computer |
| Builder.ComputerBuilder.SetProcessor | Creational/Builder/builder.ts:35-38 | sets only the processor, overwriting any earlier value, and returns the same builder |
| Builder.ComputerBuilder.SetRam | Creational/Builder/builder.ts:40-43 | sets only the RAM, overwriting any earlier value, and returns the same builder |
| Builder.ComputerBuilder.SetHardDrive | Creational/Builder/builder.ts:45-48 | sets only the hard drive, overwriting any earlier value, and returns the same builder |
| Builder.ComputerBuilder.SetGraphicsCard | Creational/Builder/builder.ts:50-53 | sets only the graphics card, overwriting any earlier value, and returns the same builder |
| Builder.ComputerBuilder.Build | Creational/Builder/builder.ts:59-63 | returns the product as assembled and leaves the builder with a fresh blank product |
| Builder.CustomPcScenario | Creational/Builder/builder.ts:78-84 | the chained calls give AMD Ryzen 7, 32GB, 1TB SSD, Nvidia RTX 3070 |
| Builder.ConsecutiveBuilds | Creational/Builder/builder.ts:59-63 | two builds give distinct products, and the second has none of the parts set before the first build |
| Facade.PayPalPayment | Structural/Facade/facade.ts:42-46 | the PayPal receipt reads back as PayPal taking exactly the amount |
| Facade.StripePayment | Structural/Facade/facade.ts:51-55 | the Stripe receipt reads back as Stripe taking exactly the amount |
| Facade.ProcessPayment | Structural/Facade/facade.ts:21-36 | "paypal" gives a PayPal receipt and "stripe" a Stripe receipt, each for exactly the amount; any other string, matched case-sensitively, gives the invalid-method message naming it |
| Facade.ProcessPaymentInjective | Structural/Facade/facade.ts:21-36 | two successful payments with different gateway or amount never give the same message |
| Facade.PaymentScenario | Structural/Facade/facade.ts:74-76 | the receipts for 100 via PayPal and 150 via Stripe, and that "PayPal" is not a known method |
| Decorator.DecoratedExtends | Structural/Decorator/decorator.ts:38-79 | a decorator's description is the wrapped one followed by its suffix (", Milk", ", Mocha", or nothing for `Plain`) |
| Decorator.WrapAllLayers | Structural/Decorator/decorator.ts:38-43 | every beverage is its base beverage wrapped in its condiments in order |
| Decorator.LayersWrapAll | Structural/Decorator/decorator.ts:38-43 | wrapping a plain beverage in condiments and reading them back gives that beverage and those condiments |
| Decorator.DescriptionIsBaseThenCondiments | Structural/Decorator/decorator.ts:119-126 | a nested description is the base description followed by the condiments, innermost first |
| Decorator.Description | Structural/Decorator/decorator.ts:13-79 | any beverage describes as the name of its base beverage followed by the suffixes of its condiments, innermost first |
| Decorator.ClientScenario | Structural/Decorator/decorator.ts:103-126 | "Espresso", "House Blend Coffee", "Espresso, Mocha" and "Espresso, Mocha, Milk" |
| Factory.CreateLogger | Creational/Factory/factory.ts:31-44 | the Console type always gives a ConsoleLogger; the File type gives a FileLogger storing the path exactly when a non-empty path is given, and otherwise fails with "File path is missing for FileLogger." |
| Factory.LogLine | Creational/Factory/factory.ts:8-22 | each line format carries the message unaltered, so the message can be read back |
| Factory.LogLinesDistinct | Creational/Factory/factory.ts:8-22 | console and file lines are never equal |
| Factory.UsageScenario | Creational/Factory/factory.ts:47-54 | the console logger and the "logs.txt" file logger, with their lines, and the missing-path errors |
| Prototype.Shape.constructor | Creational/Prototype/prototype.ts:23-25 | the shape keeps the radius, or the width and height, it is given |
| Prototype.Shape.Clone | Creational/Prototype/prototype.ts:26-28 | a fresh object keeping the radius, or the width and height |
| Prototype.Draw | Creational/Prototype/prototype.ts:29-52 | the line names the kind of shape at a fixed position: 'C' for a circle, 'R' for a rectangle |
| Prototype.DrawInjective | Creational/Prototype/prototype.ts:29-52 | different shapes never draw the same line |
| Prototype.ShapeCache.constructor | Creational/Prototype/prototype.ts:57 | the cache starts empty |
| Prototype.ShapeCache.LoadCache | Creational/Prototype/prototype.ts:61-64 | stores new Circle(10) and Rectangle(10, 5) templates under "Circle" and "Rectangle", replacing earlier ones and keeping other keys |
| Prototype.ShapeCache.GetShape | Creational/Prototype/prototype.ts:58-60 | for a loaded key, a fresh clone equal in fields to the cached template, with the cache untouched |
| Prototype.AppScenario | Creational/Prototype/prototype.ts:67-81 | draws "Drawing Circle with radius: 10" and "Drawing Rectangle with width: 10 and height: 5" |

## Left out

- Console and file output are not modelled as I/O. Each message becomes a returned value or a recorded trace: subscriber deliveries, a real server's handled resources, TCP reports, approval outcomes, and listing lines. Command's console is a `Console` object, passed explicitly, that keeps its lines in order.
- `Plain` stands for a decorator that does not override `getDescription`. The source's `CondimentDecorator` is abstract, so the example never builds one. The model keeps it as the base behaviour that `Milk` and `Mocha` extend.
- The TCP context's own "Connection state transition" log line in `setState` is not modelled. The new state is.
- `Decorator.cost()` is not modelled: it sums floating-point prices.
- `FileLogger.log` appends to a file with `fs.appendFileSync`. Only its line format is modelled.
- `createLogger`'s options are modelled as an optional record whose file path is a string. The source takes `options?: any` and tests `options && options.filePath` by truthiness, so it also accepts and stores a non-string path such as `1`; the model cannot express one.
- The "Invalid logger type." error cannot occur: the logger type is a closed datatype with two values.
- JavaScript numbers are modelled as unbounded integers. NaN, fractions and floating-point rounding are not modelled: amounts, volumes, sizes and radii are only ever whole numbers.
- The source's interfaces and abstract classes are flattened into single classes. Composite's `File` and `Directory` become one `Component` with an `isFile` flag, and `Add`/`Remove` require a directory (a `File` has neither method). `TV` and `Radio` become named constructors of one `Device`. `AdvancedRemoteControl` holds a `RemoteControl` instead of extending it.
- Composite.Component.GetSize: requires an acyclic component tree (a ghost `Tree` it is shaped like). `add` neither checks for cycles nor detaches a child from a previous parent, so on a cycle the source recurses until the stack overflows.
- Composite.Component.Ls: requires an acyclic tree, for the same reason as `GetSize`.
- Bridge.RemoteControl.VolumeUp: requires the device's volume to be in 0..100. Every device starts in range and `SetVolume` keeps it there.
- Bridge.RemoteControl.VolumeDown: requires the device's volume to be in 0..100, for the same reason.
- ChainOfResponsibility.Approver.ProcessRequest: requires a walk that ends, either at an approver that approves or at a null link. Links that loop without reaching such an approver make the source recurse until the stack overflows, and the model does not describe that.
- Flyweight.DocumentFontFactory.GetFontFlyweight: for a key naming an inherited Object.prototype member (`__proto__`, `__defineGetter__`, `__defineSetter__`, `__lookupGetter__`, `__lookupSetter__`), the source returns that inherited value, which is no flyweight. The model returns null for it and does not model the inherited value itself, nor the failure of a later `getFontFamily` call on it.
- Flyweight.DocumentFontFactory.CreateFontFlyweight: a key naming an inherited Object.prototype member is treated as present, as the source's `in` test does, so nothing is stored under it.
- Prototype.ShapeCache.GetShape: requires the key to be loaded. In the source a missing key fails with a TypeError.
- Prototype's static `shapes` dictionary is modelled as one `ShapeCache` object.
- Flyweight's `Document` class and its `render` are not modelled. Only the `getFontFlyweight` calls it makes appear in `FontScenario`.
- Getters that only return a field (`getContent`, `getState`, `getVolume`, `isEnabled`, `getName`, `getParent`, `getFontFamily`, `getFontStyle`) are modelled as direct reads of the field.
- Visitor, Singleton, Adapter, Strategy, Template Method and Abstract Factory are not part of this model. They are print statements, floating-point formatting, or reference identity, with no state or data transformation to specify.
- `Prototype Pattern/prototype.ts` (the contract-document clone) is not part of this model.
