/**
 * Command: a waiter queues dish orders as command objects and, when placing
 * them, executes each once in the order taken and empties the queue.
 */
module Command {

  /** The process's single console; chefs and waiter append their lines to it, in order. */
  class Console {
    var lines: seq<string>

    constructor ()
      ensures lines == []
    {
      lines := [];
    }

    method Log(line: string)
      modifies this
      ensures lines == old(lines) + [line]
    {
      lines := lines + [line];
    }
  }

  const PreparingPrefix := "Chef: Preparing "
  const PreparingSuffix := "..."
  const PlacingLine := "Waiter: Placing orders to the kitchen..."

  /** The line a chef writes for a dish. */
  function PreparingLine(dish: string): string {
    PreparingPrefix + dish + PreparingSuffix
  }

  /** The dish named by a chef's line. */
  function DishOf(line: string): string {
    if |PreparingPrefix| + |PreparingSuffix| <= |line| then
      line[|PreparingPrefix|..|line| - |PreparingSuffix|]
    else ""
  }

  /** A chef's line names exactly the dish it was written for. */
  lemma PreparingLineRoundTrip(dish: string)
    ensures DishOf(PreparingLine(dish)) == dish
  {
    assert PreparingLine(dish)[|PreparingPrefix|..|PreparingLine(dish)| - |PreparingSuffix|] == dish;
  }

  /** The receiver; it keeps no state of its own and only writes to the console. */
  class Chef {
    constructor ()
    {
    }

    method PrepareDish(dish: string, console: Console)
      modifies console
      ensures console.lines == old(console.lines) + [PreparingLine(dish)]
    {
      console.Log(PreparingLine(dish));
    }
  }

  /** The concrete command: asks its own chef to prepare its own dish. */
  class PrepareDishCommand {
    const chef: Chef
    const dish: string

    constructor (chef: Chef, dish: string)
      ensures this.chef == chef && this.dish == dish
    {
      this.chef := chef;
      this.dish := dish;
    }

    method Execute(console: Console)
      modifies console
      ensures console.lines == old(console.lines) + [PreparingLine(dish)]
    {
      chef.PrepareDish(dish, console);
    }
  }

  /** The dishes of a queue, in queue order. */
  function Dishes(orders: seq<PrepareDishCommand>): (dishes: seq<string>)
    ensures |dishes| == |orders|
    ensures forall i :: 0 <= i < |orders| ==> dishes[i] == orders[i].dish
  {
    if orders == [] then [] else Dishes(orders[..|orders| - 1]) + [orders[|orders| - 1].dish]
  }

  /** The lines the chefs write when the queue is executed: one per order, in queue order. */
  function KitchenLines(orders: seq<PrepareDishCommand>): (lines: seq<string>)
    ensures |lines| == |orders|
    ensures forall i :: 0 <= i < |orders| ==> lines[i] == PreparingLine(orders[i].dish)
  {
    if orders == [] then [] else KitchenLines(orders[..|orders| - 1]) + [PreparingLine(orders[|orders| - 1].dish)]
  }

  /** The dishes named by a sequence of chef lines. */
  function DishesOf(lines: seq<string>): (dishes: seq<string>)
    ensures |dishes| == |lines|
  {
    seq(|lines|, i requires 0 <= i < |lines| => DishOf(lines[i]))
  }

  /** Reading the console back gives the queue's dishes, in the order they were ordered. */
  lemma KitchenLinesNameDishes(orders: seq<PrepareDishCommand>)
    ensures DishesOf(KitchenLines(orders)) == Dishes(orders)
  {
    forall i | 0 <= i < |orders|
      ensures DishesOf(KitchenLines(orders))[i] == Dishes(orders)[i]
    {
      PreparingLineRoundTrip(orders[i].dish);
    }
  }

  /** The invoker. */
  class Waiter {
    var ordersQueue: seq<PrepareDishCommand>

    constructor ()
      ensures ordersQueue == []
    {
      ordersQueue := [];
    }

    /** Appends the command to the end of the queue. */
    method TakeOrder(command: PrepareDishCommand)
      modifies this
      ensures ordersQueue == old(ordersQueue) + [command]
    {
      ordersQueue := ordersQueue + [command];
    }

    /**
     * Announces the orders, executes every queued command once, first taken
     * first, whichever chef it addresses, then empties the queue.
     */
    method PlaceOrders(console: Console)
      modifies this, console
      ensures ordersQueue == []
      ensures console.lines == old(console.lines) + [PlacingLine] + KitchenLines(old(ordersQueue))
    {
      console.Log(PlacingLine);
      var orders := ordersQueue;
      for i := 0 to |orders|
        invariant ordersQueue == orders
        invariant console.lines == old(console.lines) + [PlacingLine] + KitchenLines(orders[..i])
      {
        assert orders[..i + 1][..i] == orders[..i];
        orders[i].Execute(console);
      }
      assert orders[..|orders|] == orders;
      ordersQueue := [];
    }
  }

  /** The example script: Pizza, Pasta and Salad are ordered and prepared in that order. */
  method RestaurantScenario() returns (first: seq<string>, second: seq<string>)
    ensures first == ["Waiter: Placing orders to the kitchen...", "Chef: Preparing Pizza...",
                      "Chef: Preparing Pasta...", "Chef: Preparing Salad..."]
    ensures second == first + ["Waiter: Placing orders to the kitchen..."]
  {
    var console := new Console();
    var chef := new Chef();
    var waiter := new Waiter();
    var command1 := new PrepareDishCommand(chef, "Pizza");
    var command2 := new PrepareDishCommand(chef, "Pasta");
    var command3 := new PrepareDishCommand(chef, "Salad");
    waiter.TakeOrder(command1);
    waiter.TakeOrder(command2);
    waiter.TakeOrder(command3);
    var queue := waiter.ordersQueue;
    assert queue == [command1, command2, command3];
    assert KitchenLines(queue) ==
      [PreparingLine("Pizza"), PreparingLine("Pasta"), PreparingLine("Salad")];
    assert PreparingLine("Pizza") == "Chef: Preparing Pizza...";
    assert PreparingLine("Pasta") == "Chef: Preparing Pasta...";
    assert PreparingLine("Salad") == "Chef: Preparing Salad...";
    waiter.PlaceOrders(console);
    first := console.lines;
    // A second call finds the queue empty and only announces.
    waiter.PlaceOrders(console);
    second := console.lines;
  }
}
