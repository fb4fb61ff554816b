/**
 * A voxel (src/core/world/Block.cpp): a material and an `active` flag.
 * Chunks own their blocks by value (a vector of Block, never shared), so a
 * block is a value here and its setters return the updated block.
 */
module Blocks {
  import opened Definitions

  datatype Block = Block(data: BlockData, active: bool)
  {
    function IsActive(): bool { active }

    function GetData(): BlockData { data }

    /** `SetActive(b)`: afterwards IsActive() is b and the material is kept. */
    function SetActive(b: bool): (r: Block)
      ensures r.IsActive() == b && r.GetData() == GetData()
    {
      this.(active := b)
    }

    /** `SetData(d)`: afterwards GetData() is d and the flag is kept. */
    function SetData(d: BlockData): (r: Block)
      ensures r.GetData() == d && r.IsActive() == IsActive()
    {
      this.(data := d)
    }
  }

  /** The constructor `Block(data, active = true)`. */
  function NewBlock(data: BlockData, active: bool := true): (r: Block)
    ensures r.GetData() == data && r.IsActive() == active
  {
    Block(data, active)
  }

  /** The filler block of a fresh chunk: default material, inactive. */
  const Air: Block := NewBlock(DefaultData, false)
}
