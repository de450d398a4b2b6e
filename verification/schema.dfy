/** The 3D scene element shared by saved cases and 3D templates (src/stores/cases.ts). */
module Schema {
  import opened Wrappers

  /** The closed set of primitive kinds an element may have. */
  datatype ElementType = Cube | Sphere | Cylinder | Pyramid | Custom

  datatype Position = Position(x: real, y: real, z: real)

  datatype Size = Size(width: real, height: real, depth: real, radius: real)

  datatype Element = Element(
    id: string,
    name: string,
    kind: ElementType,
    position: Position,
    size: Size,
    color: string,
    number: string,
    modelUrl: Option<string>)
}
