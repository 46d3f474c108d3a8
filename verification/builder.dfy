/**
 * Builder: a computer builder assembles one Computer field by field and, on
 * build, hands it over and starts again with a blank one.
 */
module Builder {
  import opened Wrappers

  /** The four parts of a computer; None is a part never set (`undefined`). */
  datatype Parts = PartsOf(processor: Option<string>, ram: Option<string>,
                         hardDrive: Option<string>, graphicsCard: Option<string>)

  const Blank := PartsOf(None, None, None, None)

  /** The product. */
  class Computer {
    var processor: Option<string>
    var ram: Option<string>
    var hardDrive: Option<string>
    var graphicsCard: Option<string>

    constructor ()
      ensures Parts() == Blank
    {
      processor, ram, hardDrive, graphicsCard := None, None, None, None;
    }

    function Parts(): Parts
      reads this
    {
      PartsOf(processor, ram, hardDrive, graphicsCard)
    }
  }

  /** ConcreteComputerBuilder. */
  class ComputerBuilder {
    var computer: Computer

    /** A fresh builder holds a blank computer of its own. */
    constructor ()
      ensures fresh(computer) && computer.Parts() == Blank
    {
      computer := new Computer();
    }

    method Reset()
      modifies this
      ensures fresh(computer) && computer.Parts() == Blank
    {
      computer := new Computer();
    }

    /** Sets only the processor, overwriting any earlier value, and returns this builder. */
    method SetProcessor(processor: string) returns (builder: ComputerBuilder)
      modifies computer
      ensures builder == this && computer == old(computer)
      ensures computer.Parts() == old(computer.Parts()).(processor := Some(processor))
    {
      computer.processor := Some(processor);
      builder := this;
    }

    /** Sets only the RAM, overwriting any earlier value, and returns this builder. */
    method SetRam(ram: string) returns (builder: ComputerBuilder)
      modifies computer
      ensures builder == this && computer == old(computer)
      ensures computer.Parts() == old(computer.Parts()).(ram := Some(ram))
    {
      computer.ram := Some(ram);
      builder := this;
    }

    /** Sets only the hard drive, overwriting any earlier value, and returns this builder. */
    method SetHardDrive(hardDrive: string) returns (builder: ComputerBuilder)
      modifies computer
      ensures builder == this && computer == old(computer)
      ensures computer.Parts() == old(computer.Parts()).(hardDrive := Some(hardDrive))
    {
      computer.hardDrive := Some(hardDrive);
      builder := this;
    }

    /** Sets only the graphics card, overwriting any earlier value, and returns this builder. */
    method SetGraphicsCard(graphicsCard: string) returns (builder: ComputerBuilder)
      modifies computer
      ensures builder == this && computer == old(computer)
      ensures computer.Parts() == old(computer.Parts()).(graphicsCard := Some(graphicsCard))
    {
      computer.graphicsCard := Some(graphicsCard);
      builder := this;
    }

    /** Hands over the computer as assembled and starts a new blank one. */
    method Build() returns (result: Computer)
      modifies this
      ensures result == old(computer) && result.Parts() == old(computer.Parts())
      ensures fresh(computer) && computer.Parts() == Blank
    {
      result := computer;
      Reset();
    }
  }

  /** The example: the four setters chained, then build. */
  method CustomPcScenario() returns (customPc: Computer)
    ensures customPc.Parts() ==
      PartsOf(Some("AMD Ryzen 7"), Some("32GB"), Some("1TB SSD"), Some("Nvidia RTX 3070"))
  {
    var computerBuilder := new ComputerBuilder();
    var b1 := computerBuilder.SetProcessor("AMD Ryzen 7");
    var b2 := b1.SetRam("32GB");
    var b3 := b2.SetHardDrive("1TB SSD");
    var b4 := b3.SetGraphicsCard("Nvidia RTX 3070");
    customPc := b4.Build();
  }

  /**
   * Two builds from one builder give two different computers, and nothing set
   * before the first build shows up in the second.
   */
  method ConsecutiveBuilds(processor: string) returns (first: Computer, second: Computer)
    ensures first != second
    ensures first.Parts() == Blank.(processor := Some(processor))
    ensures second.Parts() == Blank
  {
    var computerBuilder := new ComputerBuilder();
    var builder := computerBuilder.SetProcessor(processor);
    first := computerBuilder.Build();
    second := computerBuilder.Build();
  }
}
