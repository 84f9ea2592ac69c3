/**
 * The facade pattern demo: a bakery whose manager hides an inventory, a baker and a
 * cashier. Ingredient counters are restocked by 100 when any runs low, a cake uses 10 of
 * each, and every sale puts 10 in the register.
 */
module Facade {
  import opened Wrappers

  /** The three ingredient counters, as one value. */
  datatype Stock = Stock(flour: int, sugar: int, eggs: int)

  /** Some counter is below the 10 units a cake needs. */
  predicate Low(s: Stock)
  {
    s.flour < 10 || s.sugar < 10 || s.eggs < 10
  }

  predicate NonNegative(s: Stock)
  {
    s.flour >= 0 && s.sugar >= 0 && s.eggs >= 0
  }

  /** `stockUp` on a stock value: 100 more of each ingredient. */
  function StockedUp(s: Stock): (r: Stock)
    ensures r.flour - s.flour == 100 && r.sugar - s.sugar == 100 && r.eggs - s.eggs == 100
    ensures !Low(r) <== NonNegative(s)
  {
    Stock(s.flour + 100, s.sugar + 100, s.eggs + 100)
  }

  /**
   * `useIngredients` on a stock value: restock first if any counter is low, then take 10 of
   * each. From non-negative counters no counter goes negative.
   */
  function Used(s: Stock): (r: Stock)
    ensures NonNegative(s) ==> NonNegative(r)
    ensures !Low(s) ==> r == Stock(s.flour - 10, s.sugar - 10, s.eggs - 10)
    ensures Low(s) ==> r == Stock(s.flour + 90, s.sugar + 90, s.eggs + 90)
  {
    var t := if Low(s) then StockedUp(s) else s;
    Stock(t.flour - 10, t.sugar - 10, t.eggs - 10)
  }

  class InventoryManager {
    var flour: int
    var sugar: int
    var eggs: int

    function Current(): Stock
      reads this
    {
      Stock(flour, sugar, eggs)
    }

    /** A new inventory is empty. */
    constructor ()
      ensures Current() == Stock(0, 0, 0)
    {
      flour, sugar, eggs := 0, 0, 0;
    }

    /** `stockUp`: adds 100 to each counter. */
    method StockUp()
      modifies this
      ensures Current() == StockedUp(old(Current()))
    {
      flour := flour + 100;
      sugar := sugar + 100;
      eggs := eggs + 100;
    }

    /** `useIngredients`: restocks if any counter is below 10, then takes 10 of each. */
    method UseIngredients()
      modifies this
      ensures Current() == Used(old(Current()))
    {
      if flour < 10 || sugar < 10 || eggs < 10 {
        StockUp();
      }
      flour := flour - 10;
      sugar := sugar - 10;
      eggs := eggs - 10;
    }
  }

  /** A cake records the ingredients it took. */
  datatype Cake = Cake(flour: int, sugar: int, eggs: int)

  class Baker {
    /** The last cake baked, `null` before the first one. */
    var cake: Option<Cake>

    constructor ()
      ensures cake == None
    {
      cake := None;
    }

    /**
     * `bakeCake`: uses the ingredients of a fresh inventory (stocked up to 100, left at 90)
     * and stores and returns a cake of 10 flour, 10 sugar and 10 eggs.
     */
    method BakeCake() returns (c: Cake)
      modifies this
      ensures c == Cake(10, 10, 10) && cake == Some(c)
    {
      var inventory := new InventoryManager();
      inventory.StockUp();
      inventory.UseIngredients();
      assert inventory.Current() == Stock(90, 90, 90);
      cake := Some(Cake(10, 10, 10));
      c := cake.value;
    }
  }

  class Cashier {
    var money: int

    constructor ()
      ensures money == 0
    {
      money := 0;
    }

    /** `sellCake`: with no cake nothing is sold; otherwise the register gains 10. */
    method SellCake(cake: Option<Cake>)
      modifies this
      ensures money == old(money) + (if cake.Some? then 10 else 0)
    {
      if cake.None? {
        return;
      }
      money := money + 10;
    }
  }

  /** `bakeryManager`: the facade, owning one baker and one cashier. */
  class BakeryManager {
    const baker: Baker
    const cashier: Cashier

    ghost predicate Valid()
    {
      baker != cashier as object
    }

    constructor ()
      ensures Valid() && fresh(baker) && fresh(cashier)
      ensures baker.cake == None && cashier.money == 0
    {
      baker := new Baker();
      cashier := new Cashier();
    }

    /** `bakeCake`: the baker bakes; the register is untouched. */
    method BakeCake()
      requires Valid()
      modifies baker
      ensures baker.cake == Some(Cake(10, 10, 10))
    {
      var c := baker.BakeCake();
    }

    /** `sellCake`: the cashier sells the baker's current cake, which the baker keeps. */
    method SellCake()
      requires Valid()
      modifies cashier
      ensures cashier.money == old(cashier.money) + (if baker.cake.Some? then 10 else 0)
      ensures baker.cake == old(baker.cake)
    {
      cashier.SellCake(baker.cake);
    }

    /** `checkRegister`: the money taken so far. */
    function Register(): int
      reads cashier
    {
      cashier.money
    }
  }

  /** The demo: bake, sell, bake, sell leaves 20 in the register. */
  method FacadeUsage() returns (register: int)
    ensures register == 20
  {
    var bakeryManager := new BakeryManager();
    bakeryManager.BakeCake();
    bakeryManager.SellCake();
    bakeryManager.BakeCake();
    bakeryManager.SellCake();
    register := bakeryManager.Register();
  }
}
