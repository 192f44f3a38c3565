/**
 * The project download (src/utils/projectGenerator.ts): a fixed Next.js
 * scaffold of ten files, then one stub component file per distinct
 * component type, in order of first appearance.
 */
module ProjectGenerator {
  import opened Json
  import S = JsString
  import C = Composition

  datatype ProjectFile = ProjectFile(path: string, content: string)

  /** The object serialised into `package.json`. */
  const PackageJson: Json :=
    Obj([("name", Str("my-website")), ("version", Str("0.1.0")), ("private", Bool(true)),
         ("scripts", Obj([("dev", Str("next dev")), ("build", Str("next build")),
                          ("start", Str("next start")), ("lint", Str("next lint"))])),
         ("dependencies", Obj([("next", Str("14.1.0")), ("react", Str("18.2.0")), ("react-dom", Str("18.2.0")),
                               ("framer-motion", Str("11.0.3")), ("gsap", Str("3.12.5")), ("three", Str("0.161.0")),
                               ("@types/node", Str("20.11.16")), ("@types/react", Str("18.2.52")),
                               ("@types/react-dom", Str("18.2.18")), ("typescript", Str("5.3.3")),
                               ("tailwindcss", Str("3.4.1")), ("postcss", Str("8.4.33")),
                               ("autoprefixer", Str("10.4.17")), ("jszip", Str("3.10.1"))]))])

  /** The object serialised into `tsconfig.json`. */
  const TsConfig: Json :=
    Obj([("compilerOptions",
          Obj([("target", Str("es5")), ("lib", Arr([Str("dom"), Str("dom.iterable"), Str("esnext")])),
               ("allowJs", Bool(true)), ("skipLibCheck", Bool(true)), ("strict", Bool(true)),
               ("noEmit", Bool(true)), ("esModuleInterop", Bool(true)), ("module", Str("esnext")),
               ("moduleResolution", Str("bundler")), ("resolveJsonModule", Bool(true)),
               ("isolatedModules", Bool(true)), ("jsx", Str("preserve")), ("incremental", Bool(true)),
               ("plugins", Arr([Obj([("name", Str("next"))])])),
               ("paths", Obj([("@/*", Arr([Str("./src/*")]))]))])),
         ("include", Arr([Str("next-env.d.ts"), Str("**/*.ts"), Str("**/*.tsx"), Str(".next/types/**/*.ts")])),
         ("exclude", Arr([Str("node_modules")]))])

  /** The fixed text of `tailwind.config.js`. */
  const TailwindConfig: string :=
    "/** @type {import('tailwindcss').Config} */\nmodule.exports = {\n  content: [\n    './src/pages/**/*.{js,ts,jsx,tsx,mdx}',\n    './src/components/**/*.{js,ts,jsx,tsx,mdx}',\n    './src/app/**/*.{js,ts,jsx,tsx,mdx}',\n  ],\n  theme: {\n    extend: {},\n  },\n  plugins: [],\n}"

  /** The fixed text of `postcss.config.js`. */
  const PostcssConfig: string :=
    "module.exports = {\n  plugins: {\n    tailwindcss: {},\n    autoprefixer: {},\n  },\n}"

  /** The fixed text of `next.config.js`. */
  const NextConfig: string :=
    "/** @type {import('next').NextConfig} */\nconst nextConfig = {\n  reactStrictMode: true,\n}\n\nmodule.exports = nextConfig"

  /** The fixed text of `README.md`. */
  const ProjectReadme: string :=
    "# My Website\n\nThis is a Next.js project generated using the website builder.\n\n## Getting Started\n\nFirst, install the dependencies:\n\n```bash\nnpm install\n# or\nyarn install\n```\n\nThen, run the development server:\n\n```bash\nnpm run dev\n# or\nyarn dev\n```\n\nOpen [http://localhost:3000](http://localhost:3000) with your browser to see the result.\n\n## Project Structure\n\n- `src/app/`: Contains the main application pages\n- `src/components/`: Contains all the components used in the website\n- `src/styles/`: Contains global styles and Tailwind CSS configuration\n- `public/`: Contains static assets like images and fonts\n\n## Learn More\n\nTo learn more about Next.js, take a look at the following resources:\n\n- [Next.js Documentation](https://nextjs.org/docs) - learn about Next.js features and API.\n- [Learn Next.js](https://nextjs.org/learn) - an interactive Next.js tutorial."

  /** The fixed text of `.gitignore`. */
  const GitIgnore: string :=
    "# dependencies\n/node_modules\n/.pnp\n.pnp.js\n\n# testing\n/coverage\n\n# next.js\n/.next/\n/out/\n\n# production\n/build\n\n# misc\n.DS_Store\n*.pem\n\n# debug\nnpm-debug.log*\nyarn-debug.log*\nyarn-error.log*\n\n# local env files\n.env*.local\n\n# vercel\n.vercel\n\n# typescript\n*.tsbuildinfo\nnext-env.d.ts"

  /** The fixed text of `src/app/layout.tsx`. */
  const LayoutTsx: string :=
    "import type { Metadata } from 'next'\nimport { Inter } from 'next/font/google'\nimport './globals.css'\n\nconst inter = Inter({ subsets: ['latin'] })\n\nexport const metadata: Metadata = {\n  title: 'My Website',\n  description: 'Generated using the website builder',\n}\n\nexport default function RootLayout({\n  children,\n}: {\n  children: React.ReactNode\n}) {\n  return (\n    <html lang=\"en\">\n      <body className={inter.className}>{children}</body>\n    </html>\n  )\n}"

  /** The fixed text of `src/app/globals.css`. */
  const GlobalsCss: string :=
    "@tailwind base;\n@tailwind components;\n@tailwind utilities;"

  const PageHead: string :=
    "'use client';\n\nimport { Builder } from '@/components/Builder';\nimport { Component } from '@/types/builder';\n\nconst availableComponents: Component[] = "

  const PageTail: string :=
    ";\n\nexport default function Home() {\n  return (\n    <main className=\"min-h-screen\">\n      <Builder availableComponents={availableComponents} />\n    </main>\n  );\n}"

  /** `src/app/page.tsx`: the serialised component list between a fixed head and tail. */
  function PageTsx(listJson: string): string
  {
    PageHead + listJson + PageTail
  }

  /** The paths of the scaffold, in the order they are pushed. */
  const ScaffoldPaths: seq<string> := [
    "package.json", "tsconfig.json", "tailwind.config.js", "postcss.config.js", "next.config.js",
    "README.md", ".gitignore", "src/app/layout.tsx", "src/app/globals.css", "src/app/page.tsx"]

  /**
   * The ten scaffold files. `stringify` stands for `JSON.stringify(_, null, 2)`
   * on the two configuration objects, `stringifyList` for the same call on the
   * component list embedded in the page.
   */
  function Scaffold(components: seq<C.Component>, stringify: Json -> string,
                    stringifyList: seq<C.Component> -> string): (files: seq<ProjectFile>)
    ensures |files| == 10 && files[9].content == PageTsx(stringifyList(components))
  {
    [ProjectFile("package.json", stringify(PackageJson)),
     ProjectFile("tsconfig.json", stringify(TsConfig)),
     ProjectFile("tailwind.config.js", TailwindConfig),
     ProjectFile("postcss.config.js", PostcssConfig),
     ProjectFile("next.config.js", NextConfig),
     ProjectFile("README.md", ProjectReadme),
     ProjectFile(".gitignore", GitIgnore),
     ProjectFile("src/app/layout.tsx", LayoutTsx),
     ProjectFile("src/app/globals.css", GlobalsCss),
     ProjectFile("src/app/page.tsx", PageTsx(stringifyList(components)))]
  }

  function Paths(files: seq<ProjectFile>): (ps: seq<string>)
    ensures |ps| == |files| && forall i :: 0 <= i < |files| ==> ps[i] == files[i].path
  {
    seq(|files|, i requires 0 <= i < |files| => files[i].path)
  }

  /** `src/components/${type}.tsx`. */
  function ComponentPath(componentType: string): string
  {
    ComponentDir + componentType + TsxExt
  }

  const ComponentDir := "src/components/"
  const TsxExt := ".tsx"

  /** Different types get different paths. */
  lemma ComponentPathInjective(a: string, b: string)
    ensures ComponentPath(a) == ComponentPath(b) <==> a == b
  {
    assert a == ComponentPath(a)[15..15 + |a|];
    assert b == ComponentPath(b)[15..15 + |b|];
  }

  /** No scaffold path is a component path. */
  lemma ScaffoldIsNoComponent(t: string)
    ensures ComponentPath(t) !in ScaffoldPaths
  {
    var p := ComponentPath(t);
    assert p[..15] == "src/components/";
    assert p[4] == 'c';
  }

  /** `${key}: ${typeof value};` */
  function InterfaceLine(entry: (string, Json)): string
  {
    entry.0 + ": " + TypeOf(entry.1) + ";"
  }

  /** The interface lines, every one but the first indented by two spaces. */
  function IndentedLines(props: Props): (lines: seq<string>)
    ensures |lines| == |props|
    ensures forall i :: 0 <= i < |props| ==> lines[i] == (if i == 0 then "" else "  ") + InterfaceLine(props[i])
  {
    seq(|props|, i requires 0 <= i < |props| => (if i == 0 then "" else "  ") + InterfaceLine(props[i]))
  }

  /** The interface body: the lines joined by `.join('\n  ')`, that is, a newline and the next line's indent. */
  function InterfaceBody(props: Props): string
  {
    S.Join(IndentedLines(props), '\n')
  }

  /** The stub file emitted for the first component of a type, typed after that component's props. */
  function ComponentFile(c: C.Component): ProjectFile
  {
    var t := c.componentType;
    ProjectFile(ComponentPath(t), ComponentHead + t + PropsOpen + InterfaceBody(c.props)
                                  + PropsClose + t + FcOpen + t + FcBody + t + ";")
  }

  const ComponentHead := "import React from 'react';\n\nexport interface "
  const PropsOpen := "Props {\n  "
  const PropsClose := "\n}\n\nconst "
  const FcOpen := ": React.FC<"
  const FcBody := "Props> = (props) => {\n  return (\n    <div>\n      {/* Component implementation */}\n    </div>\n  );\n};\n\nexport default "

  /** An interface line holds a newline only if its key does. */
  lemma LineSingle(props: Props, i: nat)
    requires i < |props| && '\n' !in props[i].0
    ensures '\n' !in IndentedLines(props)[i]
  {
    var t := TypeOf(props[i].1);
    assert '\n' !in t;
    assert IndentedLines(props)[i] == (if i == 0 then "" else "  ") + (props[i].0 + ": " + t + ";");
  }

  /** The interface declares one line per prop, in key order, each naming the key and the value's `typeof`. */
  lemma InterfaceLines(props: Props)
    requires |props| >= 1
    requires forall i :: 0 <= i < |props| ==> '\n' !in props[i].0
    ensures S.Split(InterfaceBody(props), '\n') == IndentedLines(props)
  {
    var lines := IndentedLines(props);
    forall i | 0 <= i < |props| ensures '\n' !in lines[i] {
      LineSingle(props, i);
    }
    S.SplitJoin(lines, '\n');
  }

  /**
   * The files after the first `n` components have been visited: a component
   * whose path is already among the files is skipped, otherwise its file is
   * pushed.
   */
  function Emitted(sc: seq<ProjectFile>, cs: seq<C.Component>, n: nat): seq<ProjectFile>
    requires n <= |cs|
  {
    if n == 0 then sc
    else
      var files := Emitted(sc, cs, n - 1);
      if ComponentPath(cs[n - 1].componentType) in Paths(files) then files
      else files + [ComponentFile(cs[n - 1])]
  }

  /** `files.some(file => file.path === path)`. */
  method SomePath(files: seq<ProjectFile>, path: string) returns (found: bool)
    ensures found <==> path in Paths(files)
  {
    found := false;
    var i := 0;
    while i < |files|
      invariant i <= |files|
      invariant found <==> path in Paths(files)[..i]
    {
      assert Paths(files)[..i + 1] == Paths(files)[..i] + [files[i].path];
      if files[i].path == path {
        found := true;
      }
      i := i + 1;
    }
    assert Paths(files)[..i] == Paths(files);
  }

  /** `generateProjectFiles(components)`. */
  method GenerateProjectFiles(components: seq<C.Component>, stringify: Json -> string,
                              stringifyList: seq<C.Component> -> string) returns (files: seq<ProjectFile>)
    ensures files == Emitted(Scaffold(components, stringify, stringifyList), components, |components|)
  {
    files := [];
    files := files + [ProjectFile("package.json", stringify(PackageJson))];
    files := files + [ProjectFile("tsconfig.json", stringify(TsConfig))];
    files := files + [ProjectFile("tailwind.config.js", TailwindConfig)];
    files := files + [ProjectFile("postcss.config.js", PostcssConfig)];
    files := files + [ProjectFile("next.config.js", NextConfig)];
    files := files + [ProjectFile("README.md", ProjectReadme)];
    files := files + [ProjectFile(".gitignore", GitIgnore)];
    files := files + [ProjectFile("src/app/layout.tsx", LayoutTsx)];
    files := files + [ProjectFile("src/app/globals.css", GlobalsCss)];
    files := files + [ProjectFile("src/app/page.tsx", PageTsx(stringifyList(components)))];
    assert files == Scaffold(components, stringify, stringifyList);
    var i := 0;
    while i < |components|
      invariant i <= |components|
      invariant files == Emitted(Scaffold(components, stringify, stringifyList), components, i)
    {
      var component := components[i];
      var exists_ := SomePath(files, ComponentPath(component.componentType));
      if !exists_ {
        files := files + [ComponentFile(component)];
      }
      i := i + 1;
    }
  }

  // ---------------------------------------------------------------- what the file list promises

  /** Component `i` is the first of its type. */
  ghost predicate IsFirst(cs: seq<C.Component>, i: nat)
    requires i < |cs|
  {
    forall j :: 0 <= j < i ==> cs[j].componentType != cs[i].componentType
  }

  /** The indices, below `n` and in increasing order, of the components that are the first of their type. */
  ghost function FirstIndices(cs: seq<C.Component>, n: nat): (ix: seq<nat>)
    requires n <= |cs|
    ensures forall k :: 0 <= k < |ix| ==> ix[k] < n
  {
    if n == 0 then []
    else FirstIndices(cs, n - 1) + (if IsFirst(cs, n - 1) then [n - 1] else [])
  }

  /** Only first-of-their-type components are listed, in increasing order. */
  lemma {:induction false} FirstIndicesSound(cs: seq<C.Component>, n: nat)
    requires n <= |cs|
    ensures forall k :: 0 <= k < |FirstIndices(cs, n)| ==> IsFirst(cs, FirstIndices(cs, n)[k])
    ensures forall k, l :: 0 <= k < l < |FirstIndices(cs, n)| ==> FirstIndices(cs, n)[k] < FirstIndices(cs, n)[l]
  {
    if n > 0 {
      FirstIndicesSound(cs, n - 1);
    }
  }

  /** Every first-of-its-type component before `n` is listed. */
  lemma {:induction false} FirstIndicesComplete(cs: seq<C.Component>, n: nat, i: nat)
    requires i < n <= |cs| && IsFirst(cs, i)
    ensures exists k :: 0 <= k < |FirstIndices(cs, n)| && FirstIndices(cs, n)[k] == i
  {
    var ix := FirstIndices(cs, n - 1);
    if i == n - 1 {
      assert FirstIndices(cs, n)[|ix|] == i;
    } else {
      FirstIndicesComplete(cs, n - 1, i);
      var k :| 0 <= k < |ix| && ix[k] == i;
      assert FirstIndices(cs, n)[k] == i;
    }
  }

  /** Every component before `n` shares its type with a listed one. */
  lemma {:induction false} HasFirst(cs: seq<C.Component>, n: nat, j: nat)
    requires j < n <= |cs|
    ensures exists k :: 0 <= k < |FirstIndices(cs, n)|
                        && cs[FirstIndices(cs, n)[k]].componentType == cs[j].componentType
    decreases j
  {
    if IsFirst(cs, j) {
      FirstIndicesComplete(cs, n, j);
    } else {
      var j' :| 0 <= j' < j && cs[j'].componentType == cs[j].componentType;
      HasFirst(cs, n, j');
    }
  }

  /** The component files for the given component indices, in that order. */
  function FilesFor(cs: seq<C.Component>, ix: seq<nat>): (files: seq<ProjectFile>)
    requires forall k :: 0 <= k < |ix| ==> ix[k] < |cs|
    ensures |files| == |ix| && forall k :: 0 <= k < |ix| ==> files[k] == ComponentFile(cs[ix[k]])
  {
    seq(|ix|, k requires 0 <= k < |ix| => ComponentFile(cs[ix[k]]))
  }

  lemma FilesForSnoc(cs: seq<C.Component>, ix: seq<nat>, i: nat)
    requires i < |cs| && forall k :: 0 <= k < |ix| ==> ix[k] < |cs|
    ensures FilesFor(cs, ix + [i]) == FilesFor(cs, ix) + [ComponentFile(cs[i])]
  {
  }

  /** Ten files with distinct paths, none of which is a component path. */
  ghost predicate ScaffoldLike(sc: seq<ProjectFile>)
  {
    |sc| == 10
    && (forall i, t :: 0 <= i < 10 ==> sc[i].path != ComponentPath(t))
    && (forall i, j :: 0 <= i < j < 10 ==> sc[i].path != sc[j].path)
  }

  /** The scaffold's paths are the fixed list; they are distinct and none is a component path. */
  lemma ScaffoldFacts(cs: seq<C.Component>, stringify: Json -> string, stringifyList: seq<C.Component> -> string)
    ensures Paths(Scaffold(cs, stringify, stringifyList)) == ScaffoldPaths
    ensures ScaffoldLike(Scaffold(cs, stringify, stringifyList))
  {
    var sc := Scaffold(cs, stringify, stringifyList);
    forall i, t | 0 <= i < 10 ensures sc[i].path != ComponentPath(t) {
      ScaffoldIsNoComponent(t);
      assert sc[i].path == ScaffoldPaths[i];
    }
  }

  /** A file of the scaffold-then-components list. */
  lemma FileAt(sc: seq<ProjectFile>, cs: seq<C.Component>, ix: seq<nat>, i: nat)
    requires |sc| == 10
    requires forall k :: 0 <= k < |ix| ==> ix[k] < |cs|
    requires i < 10 + |ix|
    ensures (sc + FilesFor(cs, ix))[i] == if i < 10 then sc[i] else ComponentFile(cs[ix[i - 10]])
  {
  }

  /** A type seen for the first time has no file yet. */
  lemma PathAbsent(cs: seq<C.Component>, n: nat, sc: seq<ProjectFile>)
    requires n < |cs| && ScaffoldLike(sc) && IsFirst(cs, n)
    ensures ComponentPath(cs[n].componentType) !in Paths(sc + FilesFor(cs, FirstIndices(cs, n)))
  {
    var ix := FirstIndices(cs, n);
    var files := sc + FilesFor(cs, ix);
    var p := ComponentPath(cs[n].componentType);
    forall i | 0 <= i < |files| ensures files[i].path != p {
      FileAt(sc, cs, ix, i);
      if i >= 10 && files[i].path == p {
        ComponentPathInjective(cs[ix[i - 10]].componentType, cs[n].componentType);
      }
    }
  }

  /** A type seen before already has its file. */
  lemma PathFound(cs: seq<C.Component>, n: nat, sc: seq<ProjectFile>)
    requires n < |cs| && |sc| == 10 && !IsFirst(cs, n)
    ensures ComponentPath(cs[n].componentType) in Paths(sc + FilesFor(cs, FirstIndices(cs, n)))
  {
    var ix := FirstIndices(cs, n);
    var j :| 0 <= j < n && cs[j].componentType == cs[n].componentType;
    HasFirst(cs, n, j);
    var k :| 0 <= k < |ix| && cs[ix[k]].componentType == cs[j].componentType;
    FileAt(sc, cs, ix, 10 + k);
    assert Paths(sc + FilesFor(cs, ix))[10 + k] == ComponentPath(cs[n].componentType);
  }

  /**
   * The file list is the scaffold followed by one component file per
   * first-of-its-type component, in order of appearance.
   */
  lemma {:induction false} EmittedShape(sc: seq<ProjectFile>, cs: seq<C.Component>, n: nat)
    requires n <= |cs| && ScaffoldLike(sc)
    ensures Emitted(sc, cs, n) == sc + FilesFor(cs, FirstIndices(cs, n))
  {
    if n > 0 {
      EmittedShape(sc, cs, n - 1);
      if IsFirst(cs, n - 1) {
        EmittedNew(sc, cs, n - 1);
      } else {
        EmittedSeen(sc, cs, n - 1);
      }
    }
  }

  /** One step of EmittedShape: a type seen for the first time adds its file. */
  lemma EmittedNew(sc: seq<ProjectFile>, cs: seq<C.Component>, n: nat)
    requires n < |cs| && ScaffoldLike(sc) && IsFirst(cs, n)
    requires Emitted(sc, cs, n) == sc + FilesFor(cs, FirstIndices(cs, n))
    ensures Emitted(sc, cs, n + 1) == sc + FilesFor(cs, FirstIndices(cs, n + 1))
  {
    var ix := FirstIndices(cs, n);
    PathAbsent(cs, n, sc);
    assert FirstIndices(cs, n + 1) == ix + [n];
    FilesForSnoc(cs, ix, n);
    assert sc + FilesFor(cs, ix) + [ComponentFile(cs[n])] == sc + (FilesFor(cs, ix) + [ComponentFile(cs[n])]);
  }

  /** One step of EmittedShape: a type seen before adds nothing. */
  lemma EmittedSeen(sc: seq<ProjectFile>, cs: seq<C.Component>, n: nat)
    requires n < |cs| && ScaffoldLike(sc) && !IsFirst(cs, n)
    requires Emitted(sc, cs, n) == sc + FilesFor(cs, FirstIndices(cs, n))
    ensures Emitted(sc, cs, n + 1) == sc + FilesFor(cs, FirstIndices(cs, n + 1))
  {
    PathFound(cs, n, sc);
    assert FirstIndices(cs, n + 1) == FirstIndices(cs, n);
  }

  /** The distinct types among the first `n` components. */
  ghost function TypesBefore(cs: seq<C.Component>, n: nat): (ts: set<string>)
    requires n <= |cs|
  {
    if n == 0 then {} else TypesBefore(cs, n - 1) + {cs[n - 1].componentType}
  }

  /** A type is counted exactly when some component before `n` has it. */
  lemma {:induction false} TypesBeforeMembers(cs: seq<C.Component>, n: nat, t: string)
    requires n <= |cs|
    ensures t in TypesBefore(cs, n) <==> exists i :: 0 <= i < n && cs[i].componentType == t
  {
    if n > 0 {
      TypesBeforeMembers(cs, n - 1, t);
      if cs[n - 1].componentType == t {
        assert 0 <= n - 1 < n && cs[n - 1].componentType == t;
      }
    }
  }

  /** As many component files as there are distinct types. */
  lemma {:induction false} FirstIndicesCount(cs: seq<C.Component>, n: nat)
    requires n <= |cs|
    ensures |FirstIndices(cs, n)| == |TypesBefore(cs, n)|
  {
    if n > 0 {
      FirstIndicesCount(cs, n - 1);
      var t := cs[n - 1].componentType;
      TypesBeforeMembers(cs, n - 1, t);
      if IsFirst(cs, n - 1) {
        assert t !in TypesBefore(cs, n - 1);
      } else {
        var j :| 0 <= j < n - 1 && cs[j].componentType == t;
        assert t in TypesBefore(cs, n - 1);
        assert TypesBefore(cs, n) == TypesBefore(cs, n - 1);
        assert FirstIndices(cs, n) == FirstIndices(cs, n - 1);
      }
    }
  }

  /**
   * `generateProjectFiles` promises: the ten scaffold files first and in
   * their fixed order, with the page embedding the whole component list;
   * then one file per distinct type (so exactly ten for no components); and
   * no path twice.
   */
  lemma GeneratedFiles(cs: seq<C.Component>, stringify: Json -> string,
                       stringifyList: seq<C.Component> -> string)
    ensures var files := Emitted(Scaffold(cs, stringify, stringifyList), cs, |cs|);
      |files| == 10 + |TypesBefore(cs, |cs|)|
      && files[..10] == Scaffold(cs, stringify, stringifyList)
      && Paths(files[..10]) == ScaffoldPaths
      && files[9].content == PageTsx(stringifyList(cs))
      && forall i, j :: 0 <= i < j < |files| ==> files[i].path != files[j].path
  {
    var sc := Scaffold(cs, stringify, stringifyList);
    ScaffoldFacts(cs, stringify, stringifyList);
    DistinctPaths(sc, cs);
  }

  /** The generated list never holds a path twice. */
  lemma DistinctPaths(sc: seq<ProjectFile>, cs: seq<C.Component>)
    requires ScaffoldLike(sc)
    ensures var files := Emitted(sc, cs, |cs|);
      |files| == 10 + |TypesBefore(cs, |cs|)|
      && files[..10] == sc
      && forall i, j :: 0 <= i < j < |files| ==> files[i].path != files[j].path
  {
    var files := Emitted(sc, cs, |cs|);
    var ix := FirstIndices(cs, |cs|);
    EmittedShape(sc, cs, |cs|);
    FirstIndicesCount(cs, |cs|);
    FirstIndicesSound(cs, |cs|);
    assert files[..10] == sc;
    forall i, j | 0 <= i < j < |files| ensures files[i].path != files[j].path {
      FileAt(sc, cs, ix, i);
      FileAt(sc, cs, ix, j);
      if 10 <= i {
        assert IsFirst(cs, ix[j - 10]) && ix[i - 10] < ix[j - 10];
        ComponentPathInjective(cs[ix[i - 10]].componentType, cs[ix[j - 10]].componentType);
      }
    }
  }

  /** Without repeated types there is one component file per component, in list order. */
  lemma DistinctTypesOneFileEach(sc: seq<ProjectFile>, cs: seq<C.Component>)
    requires ScaffoldLike(sc)
    requires forall i, j :: 0 <= i < j < |cs| ==> cs[i].componentType != cs[j].componentType
    ensures var files := Emitted(sc, cs, |cs|);
      |files| == 10 + |cs| && files[..10] == sc
      && forall i :: 0 <= i < |cs| ==> files[10 + i] == ComponentFile(cs[i])
  {
    EmittedShape(sc, cs, |cs|);
    AllFirst(cs, |cs|);
    var files := Emitted(sc, cs, |cs|);
    var ix := FirstIndices(cs, |cs|);
    var fs := FilesFor(cs, ix);
    assert files == sc + fs;
    forall i | 0 <= i < |cs| ensures files[10 + i] == ComponentFile(cs[i]) {
      assert ix[i] == i;
      assert files[10 + i] == fs[i];
    }
    assert files[..10] == sc;
  }

  lemma {:induction false} AllFirst(cs: seq<C.Component>, n: nat)
    requires n <= |cs|
    requires forall i, j :: 0 <= i < j < |cs| ==> cs[i].componentType != cs[j].componentType
    ensures FirstIndices(cs, n) == seq(n, i requires 0 <= i < n => i)
  {
    if n > 0 {
      AllFirst(cs, n - 1);
      assert IsFirst(cs, n - 1);
    }
  }
}
