/**
 * Observer: a news agency keeps an ordered list of subscribers and, whenever
 * news is added, stores it and delivers it to every subscriber in list order.
 */
module Observer {
  import opened Sequences

  /**
   * A subscriber, compared by identity. SubscriberA and SubscriberB differ only
   * in the name they print, which is kept as a field.
   */
  class Subscriber {
    const name: string

    constructor (name: string)
      ensures this.name == name
    {
      this.name := name;
    }
  }

  /** One call `to.update(news)`; the console line it prints is left out. */
  datatype Delivery = Delivery(to: Subscriber, news: string)

  /** What one broadcast of `news` delivers: one update per list entry, in list order. */
  function Broadcast(subscribers: seq<Subscriber>, news: string): (r: seq<Delivery>)
    ensures |r| == |subscribers|
    ensures forall i :: 0 <= i < |r| ==> r[i].to == subscribers[i] && r[i].news == news
  {
    if subscribers == [] then []
    else [Delivery(subscribers[0], news)] + Broadcast(subscribers[1..], news)
  }

  /** ConcreteNewsAgency. */
  class NewsAgency {
    var subscribers: seq<Subscriber>
    var news: string

    constructor ()
      ensures subscribers == [] && news == ""
    {
      subscribers := [];
      news := "";
    }

    /** Appends the subscriber at the end, with no check for duplicates. */
    method Attach(subscriber: Subscriber)
      modifies this
      ensures subscribers == old(subscribers) + [subscriber]
      ensures news == old(news)
    {
      subscribers := subscribers + [subscriber];
    }

    /** Removes the first occurrence of the subscriber; does nothing when it is absent. */
    method Detach(subscriber: Subscriber)
      modifies this
      ensures subscriber !in old(subscribers) ==> subscribers == old(subscribers)
      ensures subscriber in old(subscribers) ==>
        subscribers == RemoveAt(old(subscribers), IndexOf(old(subscribers), subscriber))
      ensures news == old(news)
    {
      var index := IndexOf(subscribers, subscriber);
      if index != -1 {
        subscribers := RemoveAt(subscribers, index);
      }
    }

    /** Delivers the current news to every subscriber, in list order; changes nothing. */
    method NotifySubscribers() returns (sent: seq<Delivery>)
      ensures sent == Broadcast(subscribers, news)
    {
      sent := [];
      for i := 0 to |subscribers|
        invariant |sent| == i
        invariant forall k :: 0 <= k < i ==> sent[k] == Delivery(subscribers[k], news)
      {
        sent := sent + [Delivery(subscribers[i], news)];
      }
    }

    /** Stores the news, then broadcasts it. */
    method AddNews(news: string) returns (sent: seq<Delivery>)
      modifies this
      ensures this.news == news
      ensures subscribers == old(subscribers)
      ensures sent == Broadcast(subscribers, news)
    {
      this.news := news;
      sent := NotifySubscribers();
    }
  }

  /**
   * The client script: two subscribers attached, two headlines, subscriber2
   * detached, a third headline that only subscriber1 receives.
   */
  method NewsScenario() returns (subscriber1: Subscriber, subscriber2: Subscriber,
                                 first: seq<Delivery>, second: seq<Delivery>, third: seq<Delivery>)
    ensures subscriber1 != subscriber2
    ensures first == [Delivery(subscriber1, "Breaking news: COVID-19 vaccine approved!"),
                      Delivery(subscriber2, "Breaking news: COVID-19 vaccine approved!")]
    ensures second == [Delivery(subscriber1, "Weather forecast: Sunny with a chance of rain."),
                       Delivery(subscriber2, "Weather forecast: Sunny with a chance of rain.")]
    ensures third == [Delivery(subscriber1, "Traffic update: Heavy traffic on the highways.")]
  {
    var agency := new NewsAgency();
    subscriber1 := new Subscriber("SubscriberA");
    subscriber2 := new Subscriber("SubscriberB");
    agency.Attach(subscriber1);
    agency.Attach(subscriber2);
    first := agency.AddNews("Breaking news: COVID-19 vaccine approved!");
    second := agency.AddNews("Weather forecast: Sunny with a chance of rain.");
    agency.Detach(subscriber2);
    assert agency.subscribers == [subscriber1];
    third := agency.AddNews("Traffic update: Heavy traffic on the highways.");
  }
}
