/** The per-shape configuration records the GUI keeps, reduced to the text
    of their entry fields and the colour chosen for them, and the one
    foreign call the input logic makes: `str::parse::<f64>`. */
module GuiConfig {
  import opened Options
  import opened Vectors

  /** `str::parse::<f64>`: `Some` of the value exactly when the text parses. */
  type Parser = string -> Option<real>

  datatype SphereConfig = SphereConfig(posX: string, posY: string, posZ: string, radius: string, color: Vec3)
  datatype CylinderConfig = CylinderConfig(posX: string, posY: string, posZ: string, radius: string, height: string, color: Vec3)
  /** The cube's edge length is read from its `radius` entry. */
  datatype CubeConfig = CubeConfig(posX: string, posY: string, posZ: string, radius: string, color: Vec3)
  datatype FlatPlaneConfig = FlatPlaneConfig(posX: string, posY: string, posZ: string, radius: string, color: Vec3)

  /** The configured shapes, group by group, in the order they were added. */
  datatype AppState = AppState(
    spheres: seq<SphereConfig>,
    cylinders: seq<CylinderConfig>,
    cubes: seq<CubeConfig>,
    flatPlanes: seq<FlatPlaneConfig>)
}
