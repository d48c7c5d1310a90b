/**
 * Items, as far as the inventory, the equipment and the save accessor use them.
 *
 * `Item.java` and `ShopItem.java` are not part of this model: an item here keeps only the
 * fields those three read or write. `shop` tells a `ShopItem` from a plain `Item`
 * (the `instanceof ShopItem` test of the save accessor).
 */
module Items {

  class Item {
    const name: string
    /** 0 potion, 1 misc, 2..9 the eight equip kinds, 10 enchant scroll. */
    const itemType: int
    const shop: bool
    /** The inventory slot the item was last placed in. */
    var index: int
    var equipped: bool

    constructor (name: string, itemType: int, shop: bool)
      ensures this.name == name && this.itemType == itemType && this.shop == shop
      ensures index == 0 && !equipped
    {
      this.name := name;
      this.itemType := itemType;
      this.shop := shop;
      index := 0;
      equipped := false;
    }
  }
}
