/** The project facts every other part of the model reads (`ProjectInfo` and `ProjectType`). */
module Project {
  import opened Wrappers
  import opened Json

  /** The project kinds; `Name` is the string the source compares against. */
  datatype ProjectType = React | Vue | Angular | Node | Next | Nuxt | Python | Go | Rust | Generic
  {
    function Name(): string
    {
      match this
      case React => "react"
      case Vue => "vue"
      case Angular => "angular"
      case Node => "node"
      case Next => "next"
      case Nuxt => "nuxt"
      case Python => "python"
      case Go => "go"
      case Rust => "rust"
      case Generic => "generic"
    }
  }

  datatype PackageManager = Npm | Yarn | Pnpm
  {
    function Name(): string
    {
      match this
      case Npm => "npm"
      case Yarn => "yarn"
      case Pnpm => "pnpm"
    }
  }

  /**
   * What detection reports about a project. The two flags are declared
   * boolean but hold whatever value the detector's `||` chain produced, so
   * they are JSON values read through truthiness.
   */
  datatype ProjectInfo = ProjectInfo(
    projectType: ProjectType,
    framework: Option<string>,
    language: string,
    packageManager: PackageManager,
    dependencies: seq<string>,
    devDependencies: seq<string>,
    hasTypeScript: Json,
    hasTests: Json,
    rootPath: Option<string>)

  /** The user's global settings, keyed by name (`GlobalConfig`). */
  type GlobalConfig = map<string, Json>
}
